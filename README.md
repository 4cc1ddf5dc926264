# Bus arrival notifier: a Dafny model

This project models the core of `st-bus-arrival-notifier`. It is a
SmartThings SmartApp that shows the next two buses at a stop on a notifier
device. A display looks like "3분 20초" for each bus, and a status line
says "HH:mm:ss 기준" for the time of the last update. The app announces
the arrivals on speakers, and it pushes a notification button when a bus
is close.

Once a minute the app polls the Seoul bus API or the national TAGO API.
It then reconciles the fresh predictions with what the device displays
and what it saved on the previous tick. The result is one of two things:
- it displays and possibly saves a new pair of countdowns;
- it switches the device off, announcing that the bus arrived, had
  already arrived, or was missed.

The model covers these parts:
- **Time** (`utils/time.ts`, duplicated in `handlers.ts`):
  - the countdown codec: `formatTime` and the `toSeconds` regular
    expression, modelled exactly, including its leftmost match and
    backtracking;
  - the "HH:mm:ss 기준" status stamp and how it is read back;
  - the elapsed seconds, truncated toward zero.
- **Handlers** (`handlers.ts`):
  - the display codes "도착", "없음" and "-", and their sentinels 0, -1
    and -999;
  - the provider-error messages;
  - the filtering and sorting of a stop's buses;
  - the whole decision tree of `handleUpdate`, as the pure function
    `Reconcile`;
  - the error counter of `sendError`, with its JavaScript `undefined`/`NaN`
    behaviour;
  - the notification messages and button pushes;
  - a `NotifierStore` class. It holds the lowdb records and the
    `stopNames` dictionary, and its methods `HandleOn`, `HandleUpdate`
    and `SendError` change them in place.
- **App** (`helpers/app.ts`):
  - the per-device record, as the class `DeviceStates`;
  - preferences;
  - route-number extraction;
  - the notification cadence (`progress` against `notificationInterval`);
  - the monotone button status;
  - `sendTimes`, which reads back exactly what it wrote.
- **BusService** (`buses/service.ts`):
  - the choice of provider and query;
  - the route check;
  - the neighbour-stop selection, as a loop with an early exit proved
    against a specification;
  - the shaping of arrival and location results.
- **SeoulBus and Tago** (`lib/helpers/seoulBus.ts`, `lib/helpers/tago.ts`):
  - each provider's record converters;
  - the normalisation of `items` and `itemList`;
  - the classification of rejected requests (`ensureNoXmlData`), which
    both share in `ProviderErrors`.

Some things are parameters rather than platform calls:
- the current instant `now`, in milliseconds since the epoch (UTC);
- `BUSES.minTime`;
- whether speakers are configured;
- the results of the provider requests.

The device commands a handler sends are returned as a list of `Command`
values.

## Model

| member | source | states |
|---|---|---|
| Time.FormatTime | src/features/smartapp/utils/time.ts:4-6 | a countdown text always ends with the seconds unit '초' |
| Time.FormatTimeBelowAnHour | src/features/smartapp/utils/time.ts:4-6 | below one hour the text is the unpadded minutes and seconds, "M분 S초" |
| Time.ToSecondsOfMinutesAndSeconds | src/features/smartapp/utils/time.ts:8-16 | the regular expression reads "M분 S초" as 60·M + S |
| Time.ToSecondsOfSecondsOnly | src/features/smartapp/utils/time.ts:8-16 | "S초" without a minutes group reads as S |
| Time.ToSecondsWithoutSecondsUnit | src/features/smartapp/utils/time.ts:11-15 | a text with no digit right before '초' does not match and reads as 0, even when it has minutes |
| Time.NoMatchWithoutSecondsUnit | src/features/smartapp/utils/time.ts:8-11 | `exec` finds no match from any position in such a text |
| Time.ExecFrom | src/features/smartapp/utils/time.ts:8-11 | every match has numeric captured groups |
| Time.FormatTimeRoundTrip | src/features/smartapp/utils/time.ts:4-16 | decoding an encoded countdown gives it back modulo one hour, because the minute field wraps at 60 |
| Time.FormatTimeRoundTripBelowAnHour | src/features/smartapp/utils/time.ts:4-16 | below one hour decoding inverts encoding exactly |
| Time.KstClockMs | src/features/smartapp/handlers.ts:348 | the KST time of day is within one day and whole seconds |
| Time.StatusText | src/features/smartapp/handlers.ts:348 | the status stamp has the fixed length of "HH:mm:ss 기준" |
| Time.FindClock | src/features/smartapp/utils/time.ts:18-21 | finds the leftmost `\d{2}:\d{2}:\d{2}` and nothing to its left |
| Time.StatusTextClock | src/features/smartapp/handlers.ts:333-348 | the clock of a written stamp is found at its start and names the KST time of day of the write |
| Time.ExtractUpdatedTime | src/features/smartapp/utils/time.ts:18-24 | as written: none exactly when no clock matches; otherwise the leftmost clock laid on the current UTC date minus nine hours |
| Time.StatusRoundTripAsWritten | src/features/smartapp/utils/time.ts:18-24 | as written, a stamp written at `t` reads back as today's UTC midnight plus its KST clock minus nine hours |
| Time.StatusRoundTripLosesADay | src/features/smartapp/handlers.ts:335-339 | counterexample: a stamp written at 01:00 KST and read one minute later is taken to be 86460 seconds old |
| Time.ExtractUpdatedTimeKst | src/features/smartapp/utils/time.ts:18-24 | corrected reading: none exactly when no clock matches; otherwise an instant within the last day, not after now |
| Time.KstAge | src/features/smartapp/handlers.ts:335-339 | less than a day after writing, the difference of the two KST clock readings, taken modulo one day, is the elapsed time |
| Time.StatusRoundTripKst | src/features/smartapp/handlers.ts:335-348 | with the corrected reading, a stamp read back within a day gives the instant of writing, to the second |
| Time.GetElapsedTime | src/features/smartapp/utils/time.ts:26-28 | `Math.trunc` of the milliseconds over 1000: the whole seconds between the two instants, never rounded away from zero, and negative for a future stamp |
| Time.ElapsedTimeMonotonic | src/features/smartapp/utils/time.ts:26-28 | elapsed time does not decrease as `now` grows |
| Text.NatToString | src/features/smartapp/utils/time.ts:5 | a rendered number is a numeral |
| Text.DecimalValueOfNatToString | src/features/smartapp/utils/time.ts:15 | `+` of a rendered number gives the number back |
| Text.NumberOfNumeral | src/features/buses/service.ts:17 | `+keyword` loses nothing but leading zeros |
| Text.LeadingZeroIgnored | src/features/buses/service.ts:17 | `+` ignores a leading zero |
| Text.Pad2Value | src/features/smartapp/handlers.ts:348 | a two-digit field reads back as its value |
| Text.Trim | src/features/smartapp/helpers/app.ts:108 | `trim` returns a substring with no whitespace at either end, and leaves an already-trimmed string unchanged |
| Text.TrimStrips | src/features/smartapp/helpers/app.ts:108 | what `trim` keeps sits in the string with only whitespace before and after it, so it removes nothing but the two whitespace ends |
| Text.ContainsPrefixOfNeedle | src/lib/helpers/tago.ts:219-222 | a string that contains a needle contains each prefix of it |
| Sorting.SortBy | src/features/smartapp/handlers.ts:86 | the result is sorted by the key and is a permutation of the input |
| Sorting.Insert | src/features/smartapp/handlers.ts:86 | inserting into a sorted list keeps it sorted and adds exactly the element |
| Seqs.Filter | src/lib/helpers/seoulBus.ts:137 | keeps exactly the elements that satisfy the predicate |
| Seqs.Take | src/lib/helpers/seoulBus.ts:19 | `slice(0, n)`: the first `min(n, length)` elements |
| Seqs.Flatten | src/lib/helpers/seoulBus.ts:139 | `concat(...lists)`: an element is in the result exactly when it is in one of the lists, and a single list comes back as it is |
| Seqs.FilterAppend | src/lib/helpers/seoulBus.ts:137 | filtering distributes over concatenation |
| Seqs.FlattenAppend | src/lib/helpers/seoulBus.ts:139 | flattening distributes over concatenation |
| BusTypes.HttpError.Code | src/features/smartapp/handlers.ts:79 | each error class carries its own HTTP status, in both directions: BadRequest 400, Unauthorized 401, Forbidden 403, Conflict 409, ServiceUnavailable 503 |
| Handlers.BusCode | src/features/smartapp/handlers.ts:17-26 | "도착" is 0, "noBus" and "없음" are -1, "blank" and "-" are -999, and nothing else has a code |
| Handlers.DecodeDisplayed | src/features/smartapp/handlers.ts:203-204 | a displayed value is a countdown of at least 0 or a sentinel; a coded text decodes to its code, and any other text goes through `toSeconds` |
| Handlers.MissingAttributeReadsAsArrived | src/features/smartapp/handlers.ts:312-316 | a missing display attribute, read as '', decodes to 0, the arrived code |
| Handlers.ToRemainingTime | src/features/smartapp/handlers.ts:367-376 | a positive countdown is formatted, and anything else becomes one of the three display texts |
| Handlers.DecodeRemainingTime | src/features/smartapp/handlers.ts:367-376 | decoding what the device shows gives the countdown modulo one hour, 0, -1, or -999 for any other negative |
| Handlers.DecodeRemainingTimeBelowAnHour | src/features/smartapp/handlers.ts:203-204 | countdowns below one hour and the sentinels survive the display unchanged |
| Handlers.ToErrorMessage | src/features/smartapp/handlers.ts:98-109 | 401, 403 and 503 map to their own messages in both directions, and every other status is the generic error |
| Handlers.StatusOf | src/features/smartapp/handlers.ts:79 | an HTTP error class counts as its own status, and any other failure as 400 |
| Handlers.FilterRoutes | src/features/smartapp/handlers.ts:85 | keeps exactly the buses of the configured routes, and no more copies than given |
| Handlers.FilterRoutesIsFilter | src/features/smartapp/handlers.ts:85 | the filter is `Array.prototype.filter` with the route predicate, so the kept buses stay in their order |
| Handlers.NoRouteBus | src/features/smartapp/handlers.ts:85-89 | the filtered list is empty exactly when no bus belongs to a configured route |
| Handlers.SortedRouteBuses | src/features/smartapp/handlers.ts:85-86 | the sorted buses of the routes are exactly the filtered ones, by multiset, ordered by arrival time |
| Handlers.RetrieveArrivalInfo | src/features/smartapp/handlers.ts:73-96 | a failure becomes its message; no bus of the routes becomes "no bus", in both directions; otherwise a non-empty list of the routes' buses, sorted by arrival time, a permutation of the filtered list, with the provider's stop |
| Handlers.ArrivalPair | src/features/smartapp/handlers.ts:38-39 | the first two arrival times, -1 for a missing second bus |
| Handlers.Reconcile | src/features/smartapp/handlers.ts:221-301 | alerts are only arrived, already arrived or missed; a saved pair is the fresh pair, or "arrived" followed by the fresh first prediction; an unsaved pair extrapolates the display by exactly the elapsed time, never below 1, and only when the prediction matches a saved one; "arrived" is concluded only from unchanged predictions whose extrapolation ran out; "already arrived" and "missed" split at 3 minutes |
| Handlers.AcceptedUpdate | src/features/smartapp/handlers.ts:223-234 | a changed prediction less than 4 minutes above a non-zero display is displayed and saved as it is |
| Handlers.UnchangedSingleBus | src/features/smartapp/handlers.ts:235-244 | with one bus and an unchanged prediction, the display counts down by the elapsed time, or the bus has arrived |
| Handlers.RejectedSingleBus | src/features/smartapp/handlers.ts:245-249 | with one bus and a rejected prediction, the bus already arrived below 3 minutes and was missed otherwise |
| Handlers.UnchangedTwoBuses | src/features/smartapp/handlers.ts:251-265 | with two buses and an unchanged prediction, both count down; a first slot that runs out shows "arrived" while the second still runs |
| Handlers.RejectedTwoBuses | src/features/smartapp/handlers.ts:266-274 | with two buses and a rejected prediction, a first bus under 3 minutes is taken as arrived and the fresh prediction moves to the second slot; otherwise the bus was missed |
| Handlers.AfterFirstArrival | src/features/smartapp/handlers.ts:277-301 | after the first bus arrived, the fresh first prediction is judged against the saved second one, with the same threshold and countdown rules |
| Handlers.UnchangedPredictionsAreNotSaved | src/features/smartapp/handlers.ts:231-287 | predictions that match the saved ones never rewrite the store |
| Handlers.ErrorEffects | src/features/smartapp/handlers.ts:121-169 | an alert switches the device off and shows the message, and speaks it exactly when speakers are configured |
| Handlers.ErrorStep | src/features/smartapp/handlers.ts:111-124 | alerts exactly when forced or when the counter is truthy; an alert leaves the counter alone; a swallowed error moves 0 to 1 and a missing counter to NaN |
| Handlers.OnlyTheFirstErrorIsSwallowed | src/features/smartapp/handlers.ts:111-119 | from a fresh counter only the first non-forced error is swallowed |
| Handlers.MissingCounterSwallowsEveryError | src/features/smartapp/handlers.ts:113-117 | with no counter stored, every non-forced error is swallowed for ever |
| Handlers.ToArrivalTime | src/features/smartapp/handlers.ts:421-427 | nothing for a bus that is not coming, "잠시" up to `minTime`, the formatted countdown above it |
| Handlers.ToArrivalMessage | src/features/smartapp/handlers.ts:410-419 | the stop name and ", " when there is a stop name, then "첫 번째 버스가 <time> 후 도착" for a coming first bus and "두 번째 버스가 <time> 후 도착" for a coming second bus, joined by ", " only when both come, then " 예정입니다"; with no bus only the stop part and the suffix |
| Handlers.NotificationEffects | src/features/smartapp/handlers.ts:397-408 | the button is pushed exactly when the first bus is due within `minTime`, double-pushed exactly when only the second one is, never reset or switched off; with speakers exactly the announcement `ToArrivalMessage` of the two countdowns is spoken, and nothing is spoken without them |
| Handlers.NotificationInterval | src/features/smartapp/handlers.ts:175 | an unset or zero interval is exactly 3, and any other value is kept as it is |
| Handlers.TimesEffects | src/features/smartapp/handlers.ts:345-350 | one command displaying the two countdown texts of `toRemainingTime`, with a stamp that reads back (corrected) as `now` to the second |
| Handlers.DecisionEffects | src/features/smartapp/handlers.ts:226-301 | a display decision sends the times of the decided pair, and an alert sends the error effects of its message |
| Handlers.DecisionEffectsShape | src/features/smartapp/handlers.ts:226-301 | an alert switches the device off, shows its message and sets no countdown; a display sets both countdowns in one command whose stamp reads back as `now`, and never switches the device off |
| Handlers.NotifierStore.SendError | src/features/smartapp/handlers.ts:111-124 | the counter moves as `ErrorStep` says and nothing else in the store changes |
| Handlers.NotifierStore.HandleOn | src/features/smartapp/handlers.ts:30-63 | on failure only the alert is sent and nothing is stored; otherwise the pair is saved, the counter reset to 0, the stop name kept, and times, notifications and both schedules are sent |
| Handlers.NotifierStore.HandleUpdate | src/features/smartapp/handlers.ts:190-302 | missing attributes alert; a failed retrieval goes through the error counter; an unreadable stamp alerts; otherwise the effects and the saved pair are those of `Reconcile` on the decoded displays, the fresh pair, the saved pair and the elapsed time |
| Handlers.NotifierStore.HandleNotifications | src/features/smartapp/handlers.ts:378-395 | missing attributes alert; otherwise the effects are `NotificationEffects` of the decoded displayed countdowns and the device's stop name, so the device is never switched off |
| App.GetPreferences | src/features/smartapp/helpers/app.ts:32-40 | the interval is exactly 3 when unset or zero and otherwise the preference, and a flag is set only when it is true |
| App.ParenFreePrefix | src/features/smartapp/helpers/app.ts:99 | the longest prefix without '(' |
| App.ExtractRouteNumber | src/features/smartapp/helpers/app.ts:101-109 | the trimmed longest prefix without '(': a piece of the name without '(' and with only whitespace around it in that prefix, and '' for a name that starts with '(' |
| App.RouteNumberBeforeRemark | src/features/smartapp/helpers/app.ts:99-109 | a route number followed by a parenthesised remark comes back without the remark |
| App.ExtractRouteNumbers | src/features/smartapp/helpers/app.ts:92-97 | two route numbers: those of the first and the second bus, and '' when there is no second bus |
| App.BusName | src/features/smartapp/helpers/app.ts:305-309 | a bus is named by its route number with "번", or else by its ordinal |
| App.BusArrivalMessage | src/features/smartapp/helpers/app.ts:307-320 | empty exactly when the bus is not coming, and otherwise "<bus name> 버스가 <time> 후 도착", where the time is "잠시" up to `minTime` and the formatted countdown above it |
| App.ToNotificationMessage | src/features/smartapp/helpers/app.ts:286-298 | empty exactly when neither bus is coming; otherwise the stop name and ", " when there is one, the coming buses' messages joined by ", " when both come, and " 예정입니다"; when only the second bus comes it is announced under the first route number, or the second one when the first is '' |
| App.ProgressStep | src/features/smartapp/helpers/app.ts:253-261 | a notification restarts the counter; the initial Infinity always notifies; a quiet call increments the counter below the interval |
| App.TicksSplit | src/features/smartapp/helpers/app.ts:253-261 | running `a + b` calls is running `a` calls, then `b` |
| App.QuietWithinInterval | src/features/smartapp/helpers/app.ts:255-258 | after a notification, the next `interval - 1` calls stay quiet |
| App.NotifiesOncePerInterval | src/features/smartapp/helpers/app.ts:253-261 | from a restart, `m · interval` calls notify exactly `m` times and end restarted |
| App.OneInterval | src/features/smartapp/helpers/app.ts:253-261 | one interval of calls notifies exactly once |
| App.FirstCallAnnounces | src/features/smartapp/helpers/app.ts:65 | the first call after initialisation announces |
| App.NextButton | src/features/smartapp/helpers/app.ts:272-278 | a ready button with the first bus within `minTime` becomes pushed; otherwise a button that is not double with the second bus within `minTime` becomes double; otherwise it is unchanged; so the status only moves forward (ready, pushed, double) |
| App.ButtonNeverReturns | src/features/smartapp/helpers/app.ts:272-278 | over any run of notifications the button never moves back, and a double button stays double |
| App.Notify | src/features/smartapp/helpers/app.ts:246-284 | the counter follows `ProgressStep`; a quiet call changes nothing else; a notifying call moves the button by `NextButton`; a button command is sent exactly when the status changes; speech is sent exactly when notifying with speakers, and what is spoken is `ToNotificationMessage` of the countdowns, stop name and route numbers |
| App.DeviceStates.Initialize | src/features/smartapp/helpers/app.ts:54-76 | a fresh record: the first two arrival times, counter at Infinity, error count 0, ready button, and stop name and route numbers only when the preferences ask for them |
| App.DeviceStates.SaveRouteNumbers | src/features/smartapp/helpers/app.ts:111-119 | stores the extracted route numbers, so `hasRouteNumber` holds exactly when one of them is non-empty, and nothing else changes |
| App.DeviceStates.GetAttributes | src/features/smartapp/helpers/app.ts:121-130 | attributes exist exactly when countdowns were sent, and carry those countdowns, the record's button status and its update time |
| App.DeviceStates.SendError | src/features/smartapp/helpers/app.ts:139-156 | the counter moves as `ErrorStep` says, alert effects are sent only on an alert, and nothing else changes |
| App.DeviceStates.EnsureNotifications | src/features/smartapp/helpers/app.ts:246-284 | the new counter, button status and commands are those of `Notify`, and nothing else changes |
| App.DeviceStates.SendTimes | src/features/smartapp/helpers/app.ts:199-218 | records the countdowns and the instant, so the attributes read back are exactly what was sent, and runs the notifications |
| BusService.RetrieveStopsQuery | src/features/buses/service.ts:9-21 | Seoul exactly for city 99999; otherwise a numeric keyword is sent as the stop number `+keyword` (its decimal value, whose text is the keyword when it has no leading zero) and any other keyword is a stop name |
| BusService.LeadingZeroStopNumber | src/features/buses/service.ts:15-18 | a keyword with a leading zero asks for the same stop number as without it ("012" is sent as 12) |
| BusService.RetrieveRoutes | src/features/buses/service.ts:23-40 | fails with Conflict (409) "Invalid stop code" exactly when no route serves the stop |
| BusService.FindOrder | src/features/buses/service.ts:57 | the order of the first stop with the code, and none exactly when no stop has it |
| BusService.Window | src/features/buses/service.ts:63-65 | the positive numbers among middle-1, middle and middle+1, ascending |
| BusService.InWindow | src/features/buses/service.ts:69-81 | keeps exactly the stops whose order is in the window |
| BusService.InWindowAppend | src/features/buses/service.ts:69-81 | window filtering distributes over concatenation |
| BusService.InWindowSorted | src/features/buses/service.ts:70 | filtering a sorted list keeps it sorted |
| BusService.SelectNeighbors | src/features/buses/service.ts:67-81 | the early-exit scan returns the first `|window|` stops of the sorted list whose order is in the window |
| BusService.NeighborsAround | src/features/buses/service.ts:63-83 | at most three stops of the route, ascending, with positive orders within one of the middle |
| BusService.RetrieveNeighborStops | src/features/buses/service.ts:42-84 | Conflict "Invalid stop code" with no route; Conflict "Invalid data" when the stop is not on the first route; otherwise at most three neighbour stops of that route, ascending, with positive orders |
| BusService.RetrieveArrivalInfo | src/features/buses/service.ts:86-109 | empty exactly for no entry; otherwise the first entry's stop and every entry's bus, in order |
| BusService.RetrieveBusLocations | src/features/buses/service.ts:111-123 | the stop of every location, in order |
| ProviderErrors.ServiceKeyMentionsService | src/lib/helpers/tago.ts:219-224 | a body naming SERVICE_KEY also names SERVICE, which is why the key check comes first |
| ProviderErrors.EnsureNoXmlData | src/lib/helpers/tago.ts:213-228 | an error exactly for a value with a body: Unauthorized exactly when it names SERVICE_KEY; Forbidden exactly when it names SERVICE but not SERVICE_KEY; otherwise the provider is unavailable |
| ProviderErrors.Rejection | src/lib/helpers/seoulBus.ts:20-28 | the `catch` block of every `fetch*` of both providers (the TAGO ones pass "Tago"): an `Error` is rethrown as it is; a body is Unauthorized exactly when it names SERVICE_KEY, Forbidden exactly when it names SERVICE but not SERVICE_KEY, and the provider unavailable exactly when it names no SERVICE; any other value is BadRequest('Unknown') |
| SeoulBus.ToRouteType | src/lib/helpers/seoulBus.ts:71-86 | `routeTypes[typeNumber]`: defined exactly for the ten table indices, and then the entry at that index |
| SeoulBus.ToVehicleType | src/lib/helpers/seoulBus.ts:192-196 | `vehicleTypes[typeNumber]`: defined exactly for the four table indices, and then the entry at that index |
| SeoulBus.RouteTypeCodes | src/lib/helpers/seoulBus.ts:67 | route type codes 1 to 10 have a type, namely `routeTypes[code − 1]` (1 airport, 3 trunk, 4 branch, 10 shared), and nothing else has one |
| SeoulBus.VehicleTypeCodes | src/lib/helpers/seoulBus.ts:170 | each announced bus's vehicle type is `vehicleTypes[+busType]` (1 is the low-floor bus), and none past the table |
| SeoulBus.ConvertStop | src/lib/helpers/seoulBus.ts:31-38 | keeps code and name, and the number is the code read as a number |
| SeoulBus.StopNumberMatchesCode | src/lib/helpers/seoulBus.ts:35 | for a code without a leading zero, the number's decimal text is the code |
| SeoulBus.FetchStops | src/lib/helpers/seoulBus.ts:9-29 | at most the first ten stations, converted in order, and none for a null list |
| SeoulBus.ConvertRoute | src/lib/helpers/seoulBus.ts:63-69 | keeps code and name, and looks the type up one below its code |
| SeoulBus.FetchRoutesByStop | src/lib/helpers/seoulBus.ts:41-61 | one converted route per record, in order, and none for a null list |
| SeoulBus.ConvertSequentialStop | src/lib/helpers/seoulBus.ts:111-120 | the stop's fields, with `seq` as the order and its route code |
| SeoulBus.FetchStopsByRoute | src/lib/helpers/seoulBus.ts:89-109 | one converted stop per record, in order, and none for a null list |
| SeoulBus.ConvertArrivalInfo | src/lib/helpers/seoulBus.ts:151-190 | the first bus always, and the second exactly when its travel time is not '0'; each with the record's stop and route, remaining stops counted from the stop's order |
| SeoulBus.FetchArrivalInfoByStop | src/lib/helpers/seoulBus.ts:123-149 | every entry comes from a record whose first travel time is not '0' |
| SeoulBus.ArrivalInfoOfOneRecord | src/lib/helpers/seoulBus.ts:137-139 | a single record yields its own entries, or none when its first travel time is '0' |
| SeoulBus.ArrivalInfoInOrder | src/lib/helpers/seoulBus.ts:137-139 | the entries of concatenated records are the concatenated entries, so record order is kept |
| Tago.Normalize | src/lib/helpers/tago.ts:16-20 | '' gives no record, a bare item one record, and an array one record per element |
| Tago.SingleIsOneElementArray | src/lib/helpers/tago.ts:20 | a bare item and a one-element array give the same list |
| Tago.RouteName | src/lib/helpers/tago.ts:68 | a string route number is kept, and a non-negative number becomes a numeral of the same value |
| Tago.ConvertStop | src/lib/helpers/tago.ts:32-39 | keeps code, name and number, with coordinates as (longitude, latitude) |
| Tago.ConvertRoute | src/lib/helpers/tago.ts:65-71 | keeps the code and the type, and renders the route number as text |
| Tago.ConvertSequentialStop | src/lib/helpers/tago.ts:104-110 | the converted stop, with its order and route |
| Tago.ConvertBusLocation | src/lib/helpers/tago.ts:143-163 | coordinates exactly when both are truthy (0 counts as missing); stop and route fields kept |
| Tago.ConvertArrivalInfo | src/lib/helpers/tago.ts:196-211 | the bus and stop fields, with the arrival time and remaining stop count kept |
| Tago.FetchStops | src/lib/helpers/tago.ts:9-30 | one converted stop per record, in order |
| Tago.FetchRoutesByStop | src/lib/helpers/tago.ts:42-63 | one converted route per record, in order |
| Tago.FetchStopsByRoute | src/lib/helpers/tago.ts:74-102 | one converted stop per record, in order |
| Tago.FetchBusLocationsByRoute | src/lib/helpers/tago.ts:113-141 | one converted location per record, in order |
| Tago.FetchArrivalInfoByStop | src/lib/helpers/tago.ts:166-194 | one converted entry per record, in order |

## Left out

- HTTP, the SmartThings API, the schedules, lowdb's file writes and the
  console are not modelled. Their inputs are parameters, and the commands
  sent are returned as `Command` lists.
- Concurrency is not modelled. Commands that the source issues inside one
  `Promise.all` carry no order; the lists give them in source order.
- `handleOff` (src/features/smartapp/handlers.ts:185-187) only deletes the
  schedules, a platform call.
- `getConfig`, `getNotifier`, `getDeviceId` and `extractPreferences` only
  read the SmartApp context, so their results are parameters.
- `getAttributes` of the handler (src/features/smartapp/handlers.ts:304-319)
  reads the device status. Its result is the parameter
  `Option<DeviceAttributes>`, with a missing attribute given as ''.
- `moment` is replaced by integer milliseconds.
  - Invalid dates are not modelled, for example a stamp "25:61:61" that
    `moment` parses as invalid. The model reads such clocks arithmetically.
  - NaN arithmetic is not modelled.
- Coordinates are reals. The decimal parsing of `+stop.tmX` and similar
  fields is not modelled.
- Seoul numeric fields are digit strings, so a non-numeric field that
  would give NaN is not modelled.
- Sorting.SortBy is stated as sorted and a permutation. The stability of
  `Array.prototype.sort` is not proved, and the sort is modelled on values
  rather than in place.
- Strings are sequences of code points. The UTF-16 code units of
  JavaScript strings are not modelled.
- The texts of `MESSAGES` come from configuration and are not modelled.
  `Message` is an enumeration of them, so speech and messages carry the
  enumeration value.
- `toFormattedTime` of src/features/smartapp/helpers/app.ts:235-244 is
  modelled by `Handlers.ToRemainingTime`. This assumes that
  `MESSAGES.arrival`, `MESSAGES.none` and `MESSAGES.blank` are '도착',
  '없음' and '-', the texts the handler decodes.
- `string.isNumeric` of the utility package is not part of this model. It
  is taken to accept a non-empty run of ASCII digits.
- Handlers.NotifierStore.HandleUpdate: a device with no saved pair makes
  the source throw a TypeError at src/features/smartapp/handlers.ts:222.
  The model sends nothing and changes nothing in that case.
- Handlers.NotifierStore.HandleUpdate uses the corrected stamp reading,
  `Time.ExtractUpdatedTimeKst`, rather than the one as written (see
  Findings).
- SeoulBus.FetchArrivalInfoByStop states where each entry comes from and,
  through `ArrivalInfoOfOneRecord` and `ArrivalInfoInOrder`, the order of
  the entries. It does not state the count of entries as a closed formula.
- Tago.RouteName: a negative numeric route number is rendered but nothing
  is proved about it.
- The request clients are not modelled; their rejections are the `Thrown`
  values a provider helper receives. For TAGO, src/lib/clients.ts:19-31
  rejects a response whose body is not an object with the response itself
  (a `ResponseWithData` or `OtherValue`), and turns every axios error, a
  timeout included, into `ServiceUnavailable('Tago')`, which is
  `ErrorInstance(Http(ServiceUnavailable(..)))`. The Seoul client is not
  part of this model; an error it throws that is not one of the HTTP error
  classes is the `OtherError` case of `Failure`.
- Handlers.NotifierStore.HandleUpdate and
  Handlers.NotifierStore.HandleNotifications use one `device`. The source
  reads the display attributes and the saved pair from the first device of
  `devices.list` (src/features/smartapp/handlers.ts:191, 221, 379), while
  the error counter, the stop name and the command target come from the
  configured notifier (src/features/smartapp/handlers.ts:41, 113, 398).
  The model assumes the two are the same device.

## Findings

| source | as written | input that shows it | evidently intended | confidence | as-written member | corrected member |
|---|---|---|---|---|---|---|
| src/features/smartapp/handlers.ts:335-339 (and src/features/smartapp/utils/time.ts:18-24) | the "HH:mm:ss" stamp, written in KST, is parsed with `moment.utc` on the current UTC date and shifted back 9 hours | a stamp written at 16:00 UTC (01:00 KST) and read at 16:01 UTC is taken to be 86460 s old, so every unchanged countdown runs out and "the bus arrived" is announced | the stamp denotes the latest instant not after now whose KST time of day is the stamp, so elapsed time is 60 s | high (not executed) | Time.StatusRoundTripLosesADay | Time.StatusRoundTripKst |
