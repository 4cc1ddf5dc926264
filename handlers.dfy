/** The SmartApp handlers of the notifier (`features/smartapp/handlers.ts`):
    the display codec, the provider-error messages, the arrival filter, the
    per-tick reconciliation of displayed countdowns with fresh predictions,
    and the handlers that drive the device and the key-value store. */
module Handlers {
  import opened Wrappers
  import opened Text
  import opened BusTypes
  import opened Sorting
  import Seqs
  import Time

  // ---------------------------------------------------------------------
  // Display codes
  // ---------------------------------------------------------------------

  const ARRIVAL_TEXT: string := "도착"
  const NONE_TEXT: string := "없음"
  const BLANK_TEXT: string := "-"

  /** The sentinel countdowns: the bus has arrived, no second bus is
      tracked, the display is blank. */
  const ARRIVED: int := 0
  const NO_BUS: int := -1
  const BLANK: int := -999

  /** A fresh prediction this far above the displayed countdown (4 minutes)
      is taken for a different bus. */
  const UPDATE_THRESHOLD: int := 4 * Time.MINUTE_IN_SECONDS
  /** Below this displayed countdown (3 minutes) a vanished bus is taken to
      have arrived rather than to have been missed. */
  const POSSIBLE_ARRIVAL_TIME: int := 3 * Time.MINUTE_IN_SECONDS

  /** The `busCodes` table. */
  function BusCode(text: string): (r: Option<int>)
    ensures r.Some? ==> r.value == ARRIVED || r.value == NO_BUS || r.value == BLANK
    ensures r == Some(ARRIVED) <==> text == ARRIVAL_TEXT
    ensures r == Some(NO_BUS) <==> text == "noBus" || text == NONE_TEXT
    ensures r == Some(BLANK) <==> text == "blank" || text == BLANK_TEXT
  {
    if text == ARRIVAL_TEXT then Some(ARRIVED)
    else if text == "noBus" || text == NONE_TEXT then Some(NO_BUS)
    else if text == "blank" || text == BLANK_TEXT then Some(BLANK)
    else None
  }

  /** `busCodes[text] ?? toSeconds(text)`: a displayed value is a real
      countdown or one of the three sentinels. */
  function DecodeDisplayed(text: string): (r: int)
    ensures r >= 0 || r == NO_BUS || r == BLANK
    ensures BusCode(text).Some? ==> r == BusCode(text).value
    ensures BusCode(text).None? ==> r == Time.ToSeconds(text)
  {
    match BusCode(text)
    case Some(code) => code
    case None => Time.ToSeconds(text)
  }

  /** A missing attribute is read as '' and decodes to 0, the arrived code. */
  lemma MissingAttributeReadsAsArrived()
    ensures DecodeDisplayed("") == ARRIVED
  {
    Time.ToSecondsWithoutSecondsUnit("");
  }

  /** `toRemainingTime`: the text a countdown is displayed as. */
  function ToRemainingTime(seconds: int): (r: string)
    ensures seconds > 0 ==> r == Time.FormatTime(seconds)
    ensures seconds <= 0 ==> r == ARRIVAL_TEXT || r == NONE_TEXT || r == BLANK_TEXT
  {
    if seconds > 0 then Time.FormatTime(seconds)
    else if seconds == 0 then ARRIVAL_TEXT
    else if seconds == NO_BUS then NONE_TEXT
    else BLANK_TEXT
  }

  /** What the device shows decodes back to the countdown modulo one hour,
      and every other negative value comes back as the blank code. */
  lemma DecodeRemainingTime(seconds: int)
    ensures seconds > 0 ==> DecodeDisplayed(ToRemainingTime(seconds)) == seconds % 3600
    ensures seconds == 0 ==> DecodeDisplayed(ToRemainingTime(seconds)) == ARRIVED
    ensures seconds == NO_BUS ==> DecodeDisplayed(ToRemainingTime(seconds)) == NO_BUS
    ensures seconds < 0 && seconds != NO_BUS ==> DecodeDisplayed(ToRemainingTime(seconds)) == BLANK
  {
    if seconds > 0 {
      var text := Time.FormatTime(seconds);
      assert text[|text| - 1] == '초';
      assert BusCode(text) == None;
      Time.FormatTimeRoundTrip(seconds);
    }
  }

  lemma DecodeRemainingTimeBelowAnHour(seconds: int)
    requires 0 <= seconds < 3600 || seconds == NO_BUS || seconds == BLANK
    ensures DecodeDisplayed(ToRemainingTime(seconds)) == seconds
  {
    DecodeRemainingTime(seconds);
    if seconds > 0 {
      Time.ModUnique(seconds, 0, seconds, 3600);
    }
  }

  // ---------------------------------------------------------------------
  // Messages and the arrival information of one tick
  // ---------------------------------------------------------------------

  /** The messages announced when the display is switched off. */
  datatype Message =
    | Unauthorized | Forbidden | ServiceUnavailable | AppError | NoBus
    | BusArrived | BusAlreadyArrived | MissedBus

  /** `toErrorMessage`, over the HTTP status of a provider failure. */
  function ToErrorMessage(statusCode: int): (r: Message)
    ensures r == Message.Unauthorized <==> statusCode == 401
    ensures r == Message.Forbidden <==> statusCode == 403
    ensures r == Message.ServiceUnavailable <==> statusCode == 503
    ensures r == AppError <==> statusCode !in {401, 403, 503}
  {
    match statusCode
    case 401 => Message.Unauthorized
    case 403 => Message.Forbidden
    case 503 => Message.ServiceUnavailable
    case _ => AppError
  }

  /** `err instanceof errors.Error ? err.code : STATUS_CODES.badRequest`. */
  function StatusOf(failure: Failure): (code: int)
    ensures failure.Http? ==> code == failure.error.Code()
    ensures failure.OtherError? ==> code == 400
  {
    match failure
    case Http(e) => e.Code()
    case OtherError => 400
  }

  function ArrivalKey(bus: BusArrivalInfo): int {
    bus.arrivalTime
  }

  /** `buses.filter(info => routeCodes.includes(info.code))`. */
  function FilterRoutes(buses: seq<BusArrivalInfo>, routeCodes: seq<string>): (r: seq<BusArrivalInfo>)
    ensures forall b :: b in r <==> b in buses && b.code in routeCodes
    ensures multiset(r) <= multiset(buses)
  {
    if buses == [] then []
    else
      assert buses == [buses[0]] + buses[1..];
      var rest := FilterRoutes(buses[1..], routeCodes);
      if buses[0].code in routeCodes then [buses[0]] + rest else rest
  }

  /** The route filter is the array `filter` with the route predicate: it
      keeps the configured routes' buses in their order. */
  lemma {:induction false} FilterRoutesIsFilter(buses: seq<BusArrivalInfo>, routeCodes: seq<string>)
    ensures FilterRoutes(buses, routeCodes) == Seqs.Filter(buses, (b: BusArrivalInfo) => b.code in routeCodes)
  {
    if buses != [] {
      var onRoute := (b: BusArrivalInfo) => b.code in routeCodes;
      var rest := FilterRoutes(buses[1..], routeCodes);
      FilterRoutesIsFilter(buses[1..], routeCodes);
      assert rest == Seqs.Filter(buses[1..], onRoute);
      assert Seqs.Filter(buses, onRoute) == (if onRoute(buses[0]) then [buses[0]] else []) + rest;
      assert [] + rest == rest;
    }
  }

  datatype Arrivals = Arrivals(buses: seq<BusArrivalInfo>, stop: StopInfo)

  /** `retrieveArrivalInfo` of the handler: a failure becomes its message,
      no bus of the configured routes becomes `NoBus`, and otherwise the
      configured routes' buses come sorted by arrival time. */
  function RetrieveArrivalInfo(fetched: Result<StopArrivalInfo, Failure>, routeCodes: seq<string>): (r: Result<Arrivals, Message>)
    ensures fetched.Failure? ==> r == Failure(ToErrorMessage(StatusOf(fetched.error)))
    ensures fetched == Success(NoArrivalInfo) ==> r == Failure(NoBus)
    ensures fetched.Success? && fetched.value.StopArrivals? ==>
      var info := fetched.value;
      (r == Failure(NoBus) <==> forall b :: b in info.buses ==> b.code !in routeCodes)
    ensures r.Success? ==>
      && fetched.Success? && fetched.value.StopArrivals?
      && r.value.stop == fetched.value.stop
      && |r.value.buses| > 0
      && (forall b :: b in r.value.buses ==> b.code in routeCodes)
      && SortedBy(r.value.buses, ArrivalKey)
      && multiset(r.value.buses) == multiset(FilterRoutes(fetched.value.buses, routeCodes))
  {
    match fetched
    case Failure(failure) => Failure(ToErrorMessage(StatusOf(failure)))
    case Success(NoArrivalInfo) => Failure(NoBus)
    case Success(StopArrivals(stop, all)) =>
      NoRouteBus(all, routeCodes);
      SortedRouteBuses(all, routeCodes);
      var buses := SortBy(FilterRoutes(all, routeCodes), ArrivalKey);
      if |buses| == 0 then
        Failure(NoBus)
      else
        Success(Arrivals(buses, stop))
  }

  lemma NoRouteBus(all: seq<BusArrivalInfo>, routeCodes: seq<string>)
    ensures FilterRoutes(all, routeCodes) == [] <==> forall b :: b in all ==> b.code !in routeCodes
  {
    var f := FilterRoutes(all, routeCodes);
    if f != [] {
      assert f[0] in f;
    }
  }

  /** The sorted buses of the configured routes. */
  lemma SortedRouteBuses(all: seq<BusArrivalInfo>, routeCodes: seq<string>)
    ensures var f := FilterRoutes(all, routeCodes);
      var buses := SortBy(f, ArrivalKey);
      && |buses| == |f|
      && (forall b :: b in buses ==> b.code in routeCodes)
      && SortedBy(buses, ArrivalKey)
      && multiset(buses) == multiset(f)
  {
    var f := FilterRoutes(all, routeCodes);
    var buses := SortBy(f, ArrivalKey);
    forall b | b in buses
      ensures b.code in routeCodes
    {
      assert b in multiset(f);
    }
  }

  /** `[buses[0].arrivalTime, buses[1]?.arrivalTime ?? noBus]`. */
  function ArrivalPair(buses: seq<BusArrivalInfo>): (r: (int, int))
    requires |buses| > 0
    ensures r.0 == buses[0].arrivalTime
    ensures r.1 == if |buses| > 1 then buses[1].arrivalTime else NO_BUS
  {
    (buses[0].arrivalTime, if |buses| > 1 then buses[1].arrivalTime else NO_BUS)
  }

  // ---------------------------------------------------------------------
  // The reconciliation of one tick (handleUpdate, lines 221-301)
  // ---------------------------------------------------------------------

  /** What one tick decides: display a pair of countdowns (and, when `save`,
      persist that same pair as the new saved predictions), or switch the
      display off announcing a message. */
  datatype Decision = Display(first: int, second: int, save: bool) | Alert(message: Message)

  /** The slot a rejected prediction is judged by: the second display once
      the first bus has arrived, the first display otherwise. */
  function RelevantDisplayed(displayedFirst: int, displayedSecond: int): int {
    if displayedSecond != NO_BUS && displayedFirst == ARRIVED then displayedSecond else displayedFirst
  }

  /** The decision tree of `handleUpdate`, from the decoded displays, the
      fresh pair of predictions, the saved pair and the elapsed seconds. */
  function Reconcile(
    displayedFirst: int, displayedSecond: int,
    firstArrival: int, secondArrival: int,
    savedFirst: int, savedSecond: int,
    elapsed: int): (r: Decision)
    ensures r.Alert? ==> r.message in {BusArrived, BusAlreadyArrived, MissedBus}
    // a persisted pair is exactly the pair displayed, and it is the fresh
    // pair or "arrived" followed by the fresh first prediction
    ensures r.Display? && r.save ==>
      (r.first == firstArrival && r.second == secondArrival)
      || (r.first == ARRIVED && r.second == firstArrival)
    // a pair that is not persisted is an extrapolation by exactly `elapsed`
    // in which no slot below 1 shows a countdown
    ensures r.Display? && !r.save ==>
      (r.first == displayedFirst - elapsed >= 1
        && (r.second == secondArrival || r.second == displayedSecond - elapsed))
      || (r.first == ARRIVED && r.second == displayedSecond - elapsed >= 1)
    ensures r.Display? && !r.save ==>
      firstArrival == savedFirst || firstArrival == savedSecond
    // "arrived" is only ever concluded from unchanged predictions whose
    // extrapolation has run out
    ensures r == Alert(BusArrived) ==>
      if displayedSecond == NO_BUS then
        firstArrival == savedFirst && displayedFirst - elapsed < 1
      else
        displayedSecond - elapsed < 1
        && (displayedFirst == ARRIVED || (firstArrival == savedFirst && displayedFirst - elapsed < 1))
    ensures r == Alert(BusAlreadyArrived) ==>
      RelevantDisplayed(displayedFirst, displayedSecond) < POSSIBLE_ARRIVAL_TIME
    ensures r == Alert(MissedBus) ==>
      RelevantDisplayed(displayedFirst, displayedSecond) >= POSSIBLE_ARRIVAL_TIME
  {
    var updated := firstArrival != savedFirst;
    if updated && displayedFirst != 0 && firstArrival - displayedFirst < UPDATE_THRESHOLD then
      Display(firstArrival, secondArrival, true)
    else if displayedSecond == NO_BUS then
      if !updated then
        var remaining := displayedFirst - elapsed;
        if remaining < 1 then Alert(BusArrived) else Display(remaining, secondArrival, false)
      else if displayedFirst < POSSIBLE_ARRIVAL_TIME then Alert(BusAlreadyArrived)
      else Alert(MissedBus)
    else if displayedFirst != ARRIVED then
      if !updated then
        var remainingFirst := displayedFirst - elapsed;
        var remainingSecond := displayedSecond - elapsed;
        if remainingFirst < 1 then
          if remainingSecond < 1 then Alert(BusArrived) else Display(ARRIVED, remainingSecond, false)
        else
          Display(remainingFirst, remainingSecond, false)
      else if displayedFirst < POSSIBLE_ARRIVAL_TIME then Display(ARRIVED, firstArrival, true)
      else Alert(MissedBus)
    else
      // the first bus has already arrived
      var secondUpdated := firstArrival != savedSecond;
      if secondUpdated && firstArrival - displayedSecond < UPDATE_THRESHOLD then
        Display(ARRIVED, firstArrival, true)
      else if !secondUpdated then
        var remaining := displayedSecond - elapsed;
        if remaining < 1 then Alert(BusArrived) else Display(ARRIVED, remaining, false)
      else if displayedSecond < POSSIBLE_ARRIVAL_TIME then Alert(BusAlreadyArrived)
      else Alert(MissedBus)
  }

  /** A changed first prediction close enough above a non-zero display is
      accepted: it is displayed and saved as it is. Note that the sentinels
      -1 and -999 count as non-zero displays. */
  lemma AcceptedUpdate(dFirst: int, dSecond: int, fA: int, sA: int, sF: int, sS: int, e: int)
    requires fA != sF && dFirst != ARRIVED && fA - dFirst < UPDATE_THRESHOLD
    ensures Reconcile(dFirst, dSecond, fA, sA, sF, sS, e) == Display(fA, sA, true)
  {
  }

  /** One bus tracked and the prediction unchanged: count down by `elapsed`. */
  lemma UnchangedSingleBus(dFirst: int, fA: int, sA: int, sS: int, e: int)
    ensures Reconcile(dFirst, NO_BUS, fA, sA, fA, sS, e) ==
      if dFirst - e < 1 then Alert(BusArrived) else Display(dFirst - e, sA, false)
  {
  }

  /** Two buses tracked and the prediction unchanged: both count down by
      `elapsed`; a first slot that runs out shows "arrived" while the second
      still runs. */
  lemma UnchangedTwoBuses(dFirst: int, dSecond: int, fA: int, sA: int, sS: int, e: int)
    requires dSecond != NO_BUS && dFirst != ARRIVED
    ensures Reconcile(dFirst, dSecond, fA, sA, fA, sS, e) ==
      if dFirst - e >= 1 then Display(dFirst - e, dSecond - e, false)
      else if dSecond - e >= 1 then Display(ARRIVED, dSecond - e, false)
      else Alert(BusArrived)
  {
  }

  /** A rejected prediction with one bus tracked ends the tracking. */
  lemma RejectedSingleBus(dFirst: int, fA: int, sA: int, sF: int, sS: int, e: int)
    requires fA != sF && !(dFirst != ARRIVED && fA - dFirst < UPDATE_THRESHOLD)
    ensures Reconcile(dFirst, NO_BUS, fA, sA, sF, sS, e) ==
      Alert(if dFirst < POSSIBLE_ARRIVAL_TIME then BusAlreadyArrived else MissedBus)
  {
  }

  /** A rejected prediction with two buses tracked: a first bus about to
      arrive is taken to have arrived and the fresh first prediction moves to
      the second slot (and is saved); otherwise the bus was missed. */
  lemma RejectedTwoBuses(dFirst: int, dSecond: int, fA: int, sA: int, sF: int, sS: int, e: int)
    requires dSecond != NO_BUS && dFirst != ARRIVED
    requires fA != sF && fA - dFirst >= UPDATE_THRESHOLD
    ensures Reconcile(dFirst, dSecond, fA, sA, sF, sS, e) ==
      if dFirst < POSSIBLE_ARRIVAL_TIME then Display(ARRIVED, fA, true) else Alert(MissedBus)
  {
  }

  /** After the first bus arrived the fresh first prediction is matched
      against the saved second one. */
  lemma AfterFirstArrival(dSecond: int, fA: int, sA: int, sF: int, sS: int, e: int)
    requires dSecond != NO_BUS
    ensures Reconcile(ARRIVED, dSecond, fA, sA, sF, sS, e) ==
      if fA != sS && fA - dSecond < UPDATE_THRESHOLD then Display(ARRIVED, fA, true)
      else if fA == sS then
        (if dSecond - e < 1 then Alert(BusArrived) else Display(ARRIVED, dSecond - e, false))
      else if dSecond < POSSIBLE_ARRIVAL_TIME then Alert(BusAlreadyArrived)
      else Alert(MissedBus)
  {
  }

  /** Predictions that match what was saved never rewrite the store. */
  lemma UnchangedPredictionsAreNotSaved(dFirst: int, dSecond: int, fA: int, sA: int, sS: int, e: int)
    requires dFirst != ARRIVED || dSecond == NO_BUS || fA == sS
    ensures var r := Reconcile(dFirst, dSecond, fA, sA, fA, sS, e); !(r.Display? && r.save)
  {
  }

  // ---------------------------------------------------------------------
  // Device commands and notifications
  // ---------------------------------------------------------------------

  datatype ButtonStatus = Ready | Pushed | Double

  /** The commands a handler issues. Commands issued in one `Promise.all`
      are not ordered; the sequence lists them in source order. */
  datatype Command =
    | SetTimes(first: string, second: string, status: string)
    | SwitchOff
    | SetMessage(message: Message)
    | SpeakMessage(message: Message)
    | Speak(phrase: string)
    | SetButton(button: ButtonStatus)
    | ScheduleUpdates
    | ScheduleNotifications(intervalMinutes: int)

  /** An announcement followed by button commands: the phrase is spoken
      exactly when there are speakers, nothing else is spoken, and the
      button commands are those given. */
  lemma SpeechThenButton(phrase: string, hasSpeakers: bool, button: seq<Command>)
    requires forall c :: c in button ==> c.SetButton?
    ensures var effects := (if hasSpeakers then [Speak(phrase)] else []) + button;
      && ((exists p :: Speak(p) in effects) <==> hasSpeakers)
      && (hasSpeakers ==> Speak(phrase) in effects)
      && (forall p :: Speak(p) in effects ==> p == phrase)
      && (forall b :: SetButton(b) in effects <==> SetButton(b) in button)
      && SwitchOff !in effects
  {
    var effects := (if hasSpeakers then [Speak(phrase)] else []) + button;
    if hasSpeakers {
      assert effects[0] == Speak(phrase);
    }
  }

  /** `sendError` once it decides to alert: switch off, show the message,
      and speak it when speakers are configured. */
  function ErrorEffects(message: Message, hasSpeakers: bool): (r: seq<Command>)
    ensures |r| >= 2 && r[0] == SwitchOff && r[1] == SetMessage(message)
    ensures SpeakMessage(message) in r <==> hasSpeakers
  {
    [SwitchOff, SetMessage(message)] + if hasSpeakers then [SpeakMessage(message)] else []
  }

  /** A stored error counter as a JavaScript value: the key may be absent
      (`undefined`) and `undefined + 1` is `NaN`. */
  datatype StoredCount = Missing | NotANumber | Count(n: int) {
    predicate Truthy() { Count? && n != 0 }
    function Incremented(): StoredCount {
      match this
      case Missing => NotANumber
      case NotANumber => NotANumber
      case Count(k) => Count(k + 1)
    }
  }

  datatype ErrorStepResult = ErrorStepResult(alert: bool, count: StoredCount)

  /** The counter rule of `sendError`: a forced error always alerts; a
      non-forced one alerts only when the counter is truthy, and otherwise
      only increments it. */
  function ErrorStep(count: StoredCount, forced: bool): (r: ErrorStepResult)
    ensures r.alert <==> forced || count.Truthy()
    ensures r.alert ==> r.count == count
    ensures !r.alert && count.Count? ==> r.count == Count(1)
    ensures !r.alert && !count.Count? ==> r.count == NotANumber
  {
    if !forced && !count.Truthy() then ErrorStepResult(false, count.Incremented())
    else ErrorStepResult(true, count)
  }

  /** From a fresh counter the first non-forced error is swallowed and every
      later one alerts: nothing but `handleOn` sets the counter back to 0. */
  lemma OnlyTheFirstErrorIsSwallowed(n: nat)
    ensures ErrorStep(Count(0), false) == ErrorStepResult(false, Count(1))
    ensures ErrorStep(Count(n + 1), false) == ErrorStepResult(true, Count(n + 1))
  {
  }

  /** Without a counter every non-forced error is swallowed, for ever. */
  lemma MissingCounterSwallowsEveryError()
    ensures ErrorStep(Missing, false) == ErrorStepResult(false, NotANumber)
    ensures ErrorStep(NotANumber, false) == ErrorStepResult(false, NotANumber)
  {
  }

  /** `toArrivalTime`: nothing for a bus that is not coming, "soon" at or
      below `minTime`, the formatted countdown above it. */
  function ToArrivalTime(seconds: int, minTime: int): (r: string)
    ensures r == "" <==> seconds <= 0
    ensures 0 < seconds <= minTime ==> r == "잠시"
    ensures seconds > 0 && seconds > minTime ==> r == Time.FormatTime(seconds)
  {
    if seconds <= 0 then "" else if seconds > minTime then Time.FormatTime(seconds) else "잠시"
  }

  const ANNOUNCEMENT_SUFFIX: string := " 예정입니다"
  const COMMA: string := ", "

  const FIRST_BUS: string := "첫 번째 버스가 "
  const SECOND_BUS: string := "두 번째 버스가 "
  const ARRIVAL_PHRASE: string := " 후 도착"

  /** The part of an announcement for one coming bus: its ordinal, its
      arrival time and the arrival phrase. */
  function BusArrival(ordinal: string, seconds: int, minTime: int): string {
    ordinal + ToArrivalTime(seconds, minTime) + ARRIVAL_PHRASE
  }

  /** `toArrivalMessage` of the handler: always ends with the suffix, even
      when neither bus has an arrival time. */
  function ToArrivalMessage(firstSeconds: int, secondSeconds: int, stopName: string, minTime: int): (r: string)
    ensures |r| >= |ANNOUNCEMENT_SUFFIX| && r[|r| - |ANNOUNCEMENT_SUFFIX|..] == ANNOUNCEMENT_SUFFIX
    ensures stopName != "" ==> |r| >= |stopName| + 2 && r[..|stopName| + 2] == stopName + COMMA
    ensures firstSeconds <= 0 && secondSeconds <= 0 ==>
      r == stopName + (if stopName != "" then COMMA else "") + ANNOUNCEMENT_SUFFIX
    ensures firstSeconds > 0 && secondSeconds > 0 ==>
      r == stopName + (if stopName != "" then COMMA else "")
        + (BusArrival(FIRST_BUS, firstSeconds, minTime) + COMMA + BusArrival(SECOND_BUS, secondSeconds, minTime))
        + ANNOUNCEMENT_SUFFIX
    ensures firstSeconds > 0 && secondSeconds <= 0 ==>
      r == stopName + (if stopName != "" then COMMA else "") + BusArrival(FIRST_BUS, firstSeconds, minTime) + ANNOUNCEMENT_SUFFIX
    ensures firstSeconds <= 0 && secondSeconds > 0 ==>
      r == stopName + (if stopName != "" then COMMA else "") + BusArrival(SECOND_BUS, secondSeconds, minTime) + ANNOUNCEMENT_SUFFIX
  {
    var firstTime := ToArrivalTime(firstSeconds, minTime);
    var firstMessage := if firstTime == "" then "" else BusArrival(FIRST_BUS, firstSeconds, minTime);
    var secondTime := ToArrivalTime(secondSeconds, minTime);
    var secondMessage := if secondTime == "" then "" else BusArrival(SECOND_BUS, secondSeconds, minTime);
    var delimiter := if firstMessage != "" && secondMessage != "" then COMMA else "";
    var prefix := stopName + (if stopName != "" then COMMA else "");
    var middle := firstMessage + delimiter + secondMessage;
    assert firstMessage == "" ==> middle == secondMessage;
    assert secondMessage == "" ==> middle == firstMessage;
    Framed(prefix, middle, ANNOUNCEMENT_SUFFIX);
    prefix + middle + ANNOUNCEMENT_SUFFIX
  }

  /** `sendNotifications`: the announcement, and a button push for the
      first bus that is due within `minTime` (a double push when it is only
      the second one). */
  function NotificationEffects(firstTime: int, secondTime: int, stopName: string, minTime: int, hasSpeakers: bool): (r: seq<Command>)
    ensures SetButton(Pushed) in r <==> 0 < firstTime <= minTime
    ensures SetButton(Double) in r <==> !(0 < firstTime <= minTime) && 0 < secondTime <= minTime
    ensures SetButton(Ready) !in r && SwitchOff !in r
    ensures (exists p :: Speak(p) in r) <==> hasSpeakers
    ensures hasSpeakers ==> Speak(ToArrivalMessage(firstTime, secondTime, stopName, minTime)) in r
    ensures forall p :: Speak(p) in r ==> p == ToArrivalMessage(firstTime, secondTime, stopName, minTime)
  {
    var message := ToArrivalMessage(firstTime, secondTime, stopName, minTime);
    var speech := if hasSpeakers then [Speak(message)] else [];
    var button :=
      if firstTime <= minTime && firstTime > 0 then [SetButton(Pushed)]
      else if secondTime <= minTime && secondTime > 0 then [SetButton(Double)]
      else [];
    SpeechThenButton(message, hasSpeakers, button);
    speech + button
  }

  /** `notificationInterval.value || 3`. */
  function NotificationInterval(preference: Option<int>): (r: int)
    ensures r != 0
    ensures preference.Some? && preference.value != 0 ==> r == preference.value
    ensures preference.None? || preference.value == 0 ==> r == 3
  {
    if preference.Some? && preference.value != 0 then preference.value else 3
  }

  /** The notifier's attributes as read from the platform, each '' when
      missing. */
  datatype DeviceAttributes = DeviceAttributes(firstRemainingTime: string, secondRemainingTime: string, statusMessage: string)

  /** `sendTimes` of the handler: both countdowns and the stamp of `now`. */
  function TimesEffects(first: int, second: int, now: int): (r: seq<Command>)
    ensures |r| == 1 && r[0].SetTimes?
    ensures r[0].first == ToRemainingTime(first) && r[0].second == ToRemainingTime(second)
    ensures Time.ExtractUpdatedTimeKst(r[0].status, now) == Some(now - now % Time.SECOND_IN_MS)
  {
    Time.StatusRoundTripKst(now, now);
    [SetTimes(ToRemainingTime(first), ToRemainingTime(second), Time.StatusText(now))]
  }

  /** The commands that carry out a decision. */
  function DecisionEffects(decision: Decision, now: int, hasSpeakers: bool): (r: seq<Command>)
    ensures decision.Display? ==> r == TimesEffects(decision.first, decision.second, now)
    ensures decision.Alert? ==> r == ErrorEffects(decision.message, hasSpeakers)

  {
    match decision
    case Display(first, second, _) => TimesEffects(first, second, now)
    case Alert(message) => ErrorEffects(message, hasSpeakers)
  }
  /** An alert switches the display off and sets no countdown; a display
      sets both countdowns once, with a stamp that reads back as `now`, and
      leaves the display on. */
  lemma DecisionEffectsShape(decision: Decision, now: int, hasSpeakers: bool)
    ensures var r := DecisionEffects(decision, now, hasSpeakers);
      decision.Alert? ==>
        && |r| >= 2 && r[0] == SwitchOff && r[1] == SetMessage(decision.message)
        && forall c :: c in r ==> !c.SetTimes?
    ensures var r := DecisionEffects(decision, now, hasSpeakers);
      decision.Display? ==>
        && |r| == 1 && r[0].SetTimes? && SwitchOff !in r
        && Time.ExtractUpdatedTimeKst(r[0].status, now) == Some(now - now % Time.SECOND_IN_MS)
  {
  }


  // ---------------------------------------------------------------------
  // The store and the handlers
  // ---------------------------------------------------------------------

  /** The lowdb store and the module-level `stopNames` dictionary, keyed by
      device id. */
  class NotifierStore {
    /** `${deviceId}.arrivalInfo`: the saved pair of predictions. */
    var arrivalInfo: map<string, (int, int)>
    /** `${deviceId}.errorCount`. */
    var errorCount: map<string, StoredCount>
    var stopNames: map<string, string>

    constructor ()
      ensures arrivalInfo == map[] && errorCount == map[] && stopNames == map[]
    {
      arrivalInfo, errorCount, stopNames := map[], map[], map[];
    }

    function ErrorCountOf(device: string): StoredCount
      reads this
    {
      if device in errorCount then errorCount[device] else Missing
    }

    function StopNameOf(device: string): string
      reads this
    {
      if device in stopNames then stopNames[device] else ""
    }

    /** `sendError`. */
    method SendError(device: string, message: Message, forced: bool, hasSpeakers: bool) returns (effects: seq<Command>)
      modifies this
      ensures arrivalInfo == old(arrivalInfo) && stopNames == old(stopNames)
      ensures var step := ErrorStep(old(ErrorCountOf(device)), forced);
        && effects == (if step.alert then ErrorEffects(message, hasSpeakers) else [])
        && errorCount == (if step.alert then old(errorCount) else old(errorCount)[device := step.count])
    {
      var step := ErrorStep(ErrorCountOf(device), forced);
      if step.alert {
        effects := ErrorEffects(message, hasSpeakers);
      } else {
        errorCount := errorCount[device := step.count];
        effects := [];
      }
    }

    /** `handleOn`: on arrival information, save the pair, reset the error
      counter, remember the stop name, display the pair, announce it and
      schedule the updates and the notifications. */
    method HandleOn(
      device: string, fetched: Result<StopArrivalInfo, Failure>, routeCodes: seq<string>,
      now: int, hasSpeakers: bool, minTime: int, intervalPreference: Option<int>)
      returns (effects: seq<Command>)
      modifies this
      ensures var info := RetrieveArrivalInfo(fetched, routeCodes);
        if info.Failure? then
          && arrivalInfo == old(arrivalInfo) && errorCount == old(errorCount) && stopNames == old(stopNames)
          && effects == ErrorEffects(info.error, hasSpeakers)
        else
          var pair := ArrivalPair(info.value.buses);
          && arrivalInfo == old(arrivalInfo)[device := pair]
          && errorCount == old(errorCount)[device := Count(0)]
          && stopNames == old(stopNames)[device := info.value.stop.name]
          && effects == TimesEffects(pair.0, pair.1, now)
            + NotificationEffects(pair.0, pair.1, info.value.stop.name, minTime, hasSpeakers)
            + [ScheduleUpdates, ScheduleNotifications(NotificationInterval(intervalPreference))]
    {
      var info := RetrieveArrivalInfo(fetched, routeCodes);
      if info.Failure? {
        effects := SendError(device, info.error, true, hasSpeakers);
        return;
      }
      var pair := ArrivalPair(info.value.buses);
      arrivalInfo := arrivalInfo[device := pair];
      errorCount := errorCount[device := Count(0)];
      stopNames := stopNames[device := info.value.stop.name];
      assert StopNameOf(device) == info.value.stop.name;
      effects := TimesEffects(pair.0, pair.1, now)
        + NotificationEffects(pair.0, pair.1, StopNameOf(device), minTime, hasSpeakers)
        + [ScheduleUpdates, ScheduleNotifications(NotificationInterval(intervalPreference))];
    }

    /** `handleUpdate`: one polling tick. The saved pair is rewritten only
      when the decision persists a pair; the error counter moves only on a
      failed retrieval. A device without a saved pair makes the source throw
      a TypeError: nothing is sent. */
    method HandleUpdate(
      device: string, attributes: Option<DeviceAttributes>,
      fetched: Result<StopArrivalInfo, Failure>, routeCodes: seq<string>,
      now: int, hasSpeakers: bool)
      returns (effects: seq<Command>)
      modifies this
      ensures stopNames == old(stopNames)
      ensures attributes.None? ==>
        && effects == ErrorEffects(AppError, hasSpeakers)
        && arrivalInfo == old(arrivalInfo) && errorCount == old(errorCount)
      ensures attributes.Some? && RetrieveArrivalInfo(fetched, routeCodes).Failure? ==>
        var step := ErrorStep(old(ErrorCountOf(device)), false);
        var message := RetrieveArrivalInfo(fetched, routeCodes).error;
        && arrivalInfo == old(arrivalInfo)
        && effects == (if step.alert then ErrorEffects(message, hasSpeakers) else [])
        && errorCount == (if step.alert then old(errorCount) else old(errorCount)[device := step.count])
      ensures attributes.Some? && RetrieveArrivalInfo(fetched, routeCodes).Success? ==>
        errorCount == old(errorCount)
      ensures (attributes.Some? && RetrieveArrivalInfo(fetched, routeCodes).Success?
        && Time.ExtractUpdatedTimeKst(attributes.value.statusMessage, now).None?) ==>
        effects == ErrorEffects(AppError, hasSpeakers) && arrivalInfo == old(arrivalInfo)
      ensures (attributes.Some? && RetrieveArrivalInfo(fetched, routeCodes).Success?
        && Time.ExtractUpdatedTimeKst(attributes.value.statusMessage, now).Some?
        && device !in old(arrivalInfo)) ==>
        effects == [] && arrivalInfo == old(arrivalInfo)
      ensures (attributes.Some? && RetrieveArrivalInfo(fetched, routeCodes).Success?
        && Time.ExtractUpdatedTimeKst(attributes.value.statusMessage, now).Some?
        && device in old(arrivalInfo)) ==>
        var pair := ArrivalPair(RetrieveArrivalInfo(fetched, routeCodes).value.buses);
        var saved := old(arrivalInfo)[device];
        var elapsed := Time.GetElapsedTime(Time.ExtractUpdatedTimeKst(attributes.value.statusMessage, now).value, now);
        var decision := Reconcile(
          DecodeDisplayed(attributes.value.firstRemainingTime),
          DecodeDisplayed(attributes.value.secondRemainingTime),
          pair.0, pair.1, saved.0, saved.1, elapsed);
        && effects == DecisionEffects(decision, now, hasSpeakers)
        && arrivalInfo == if decision.Display? && decision.save
             then old(arrivalInfo)[device := (decision.first, decision.second)]
             else old(arrivalInfo)
    {
      if attributes.None? {
        effects := SendError(device, AppError, true, hasSpeakers);
        return;
      }
      var displayedFirst := DecodeDisplayed(attributes.value.firstRemainingTime);
      var displayedSecond := DecodeDisplayed(attributes.value.secondRemainingTime);
      var info := RetrieveArrivalInfo(fetched, routeCodes);
      if info.Failure? {
        effects := SendError(device, info.error, false, hasSpeakers);
        return;
      }
      var pair := ArrivalPair(info.value.buses);
      var lastUpdated := Time.ExtractUpdatedTimeKst(attributes.value.statusMessage, now);
      if lastUpdated.None? {
        effects := SendError(device, AppError, true, hasSpeakers);
        return;
      }
      if device !in arrivalInfo {
        effects := [];
        return;
      }
      var saved := arrivalInfo[device];
      var elapsed := Time.GetElapsedTime(lastUpdated.value, now);
      var decision := Reconcile(displayedFirst, displayedSecond, pair.0, pair.1, saved.0, saved.1, elapsed);
      if decision.Display? && decision.save {
        arrivalInfo := arrivalInfo[device := (decision.first, decision.second)];
      }
      effects := DecisionEffects(decision, now, hasSpeakers);
    }

    /** `handleNotifications`: announce what the device displays. */
    function HandleNotifications(device: string, attributes: Option<DeviceAttributes>, minTime: int, hasSpeakers: bool): (r: seq<Command>)
      reads this
      ensures attributes.None? ==> r == ErrorEffects(AppError, hasSpeakers)
      ensures attributes.Some? ==> SwitchOff !in r
      ensures attributes.Some? ==> r == NotificationEffects(
        DecodeDisplayed(attributes.value.firstRemainingTime), DecodeDisplayed(attributes.value.secondRemainingTime),
        StopNameOf(device), minTime, hasSpeakers)
    {
      match attributes
      case None => ErrorEffects(AppError, hasSpeakers)
      case Some(a) =>
        NotificationEffects(DecodeDisplayed(a.firstRemainingTime), DecodeDisplayed(a.secondRemainingTime),
          StopNameOf(device), minTime, hasSpeakers)
    }
  }
}
