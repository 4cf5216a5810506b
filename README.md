# trainWatcher, modelled in Dafny

trainWatcher answers "when is the next train?" for one New York subway
station: 86 St on Central Park West (stop `A24`), served by the A, B and
C lines. `get_arrivals` (mta.py) reads the MTA's GTFS-realtime feeds. It
keeps the stop-time updates at the station, for trips on the requested
routes. Each one becomes an entry: route, whole minutes away, clock
time. The entry goes under "northbound" when the stop id ends in `N` and
"southbound" otherwise. Trains gone a minute or more are dropped. Each
list is sorted stably by minutes. `format_for_siri` turns that dictionary
into one spoken sentence per direction, using at most three trains each.
The `/next-train` endpoint (server.py) maps its `direction`, `train` and
`format` query parameters onto these two calls. It answers either with
the dictionary as JSON or with the sentence as plain text.

The model has these modules:

- `Gtfs` holds the parts of a feed message that are read.
- `Extraction` covers the per-update decision and the lists it builds.
- `ArrivalSort` covers the stable sort, as functions and as an in-place
  insertion sort on an array.
- `Siri` covers the spoken text, as functions.
- `Mta` holds the two operations as methods with loops, each proved
  equal to those functions.
- `Server` covers the parameter mapping and the choice of answer.
- `Scenarios` holds worked requests.
- `Text` and `Wrappers` are support code.

The functions and their properties are stated once. Each loop is proved
to compute exactly them.

Modelling choices:

- The feeds are a sequence of fetch results. `None` is a feed that could
  not be fetched or parsed.
- The current time is an integer `now`, in seconds.
- `strftime` is an uninterpreted parameter `clock: int -> string`.
- A protobuf `HasField` becomes an `Option`.

## Model

| member | source | states |
|---|---|---|
| Extraction.EffectiveRoutes | mta.py:41-42 | A non-empty route set is used as given. An absent or empty one means A, B and C. The filter is never empty. |
| Extraction.MinutesAwayTruncates | mta.py:74-75 | Minutes away is the seconds difference divided by 60 and truncated toward zero, with exact bounds on each side of zero. |
| Extraction.MinutesAwayNonNegative | mta.py:74-79 | Minutes away is non-negative exactly when the train is less than 60 seconds gone. Anything within 59 seconds either way is 0 minutes. |
| Extraction.DirectionOf | mta.py:81 | A stop id gives "northbound" exactly when it ends in `N`. Every other id, including the empty one, gives "southbound". |
| Extraction.StopTimeArrivalCases | mta.py:59-86 | One update gives no entry off the station, and none without a time. With a time it gives the entry from the arrival time, or else the departure time, exactly when the train is less than 60 seconds gone. Any entry has the trip's route and minutes >= 0. |
| Extraction.StopTimeArrivalKept | mta.py:62-86 | A kept update appends its entry to its own direction's list only. |
| Extraction.StopTimeArrivalDropped | mta.py:62-79 | An update off the station, without a time, or a minute or more gone appends nothing to either list. |
| Extraction.FromStopsMembers | mta.py:59-86 | An entry is in a trip's list for a direction exactly when some stop-time update of the trip yields it there. |
| Extraction.FromEntitiesMembers | mta.py:49-86 | An entry is in a feed's list exactly when some entity has a trip update on a filtered route that yields it. Entities without a trip update and trips on other routes contribute nothing. |
| Extraction.ExtractedMembers | mta.py:44-86 | An entry is in a direction's unsorted list exactly when some successfully fetched feed yields it. |
| Extraction.ExtractedSound | mta.py:42-86 | Every extracted entry is on a filtered route with minutes >= 0. It comes from a successful feed, an entity of it with a trip, and an update of that trip. Its route is the trip's route. The update is at the station and in its direction. Its minutes and clock time come from the update's chosen time. |
| Extraction.ExtractedAppend | mta.py:44-47 | The feeds' lists concatenate in feed order: each feed contributes independently of the others. |
| Extraction.FailedFeedIgnored | mta.py:45-47 | A feed that failed to fetch contributes nothing. The other feeds' entries keep their order. |
| Extraction.AtMostOnePerStop | mta.py:59-86 | Each stop-time update adds at most one entry, to one direction. |
| ArrivalSort.SortSorted | mta.py:88-90 | The sorted list is ordered by minutes. |
| ArrivalSort.SortPermutes | mta.py:88-90 | The sorted list has exactly the input's entries, each as often (equal multisets). |
| ArrivalSort.SortStable | mta.py:88-90 | Python's sort is stable: for every minutes value, the entries with that value keep their input order. |
| ArrivalSort.SortLength | mta.py:88-90 | Sorting keeps the length. |
| ArrivalSort.InsertSorted | mta.py:89 | Inserting into a sorted list keeps it sorted. |
| ArrivalSort.InsertMultiset | mta.py:89 | Inserting adds exactly the one entry. |
| ArrivalSort.InsertKeepsOrder | mta.py:89 | Insertion goes after every entry of equal minutes, so each minutes value's entries keep their order. |
| ArrivalSort.InsertAt | mta.py:89 | The functional insertion puts the entry exactly where the array shift stops. |
| ArrivalSort.InsertInPlace | mta.py:89 | The shift loop on the array leaves the first i+1 cells equal to the functional insertion and the cells after them untouched. |
| ArrivalSort.SortInPlace | mta.py:89-90 | The in-place insertion sort leaves the array equal to the stable sort of its old contents. |
| Mta.SortList | mta.py:89-90 | `list.sort(key=minutes)` gives the stable sort of the list. |
| Mta.AddTripArrivals | mta.py:59-86 | The stop-time loop appends to each direction's list exactly that trip's entries for the direction, in update order. The dictionary keeps its two keys. |
| Mta.AddFeedArrivals | mta.py:49-86 | The entity loop appends exactly the feed's entries for each direction, skipping entities without a trip update and trips on unrequested routes. |
| Mta.GetArrivals | mta.py:31-92 | `get_arrivals` returns both keys, each holding the stable sort by minutes of that direction's entries over every fetched feed in order. |
| Mta.ArrivalsProperties | mta.py:31-92 | For each direction the result is ordered by minutes and holds exactly the extracted entries. Ties stay in feed order. It holds only trains of requested routes with minutes >= 0. |
| Mta.FailedFeedAbsorbed | mta.py:44-47 | An unreachable feed changes nothing in the returned dictionary. |
| Mta.EmptyFilterIsDefault | mta.py:41-42 | An empty route filter gives the same dictionary as no filter: all three routes. |
| Mta.NoRequestedTrips | mta.py:42-57 | When no trip in the feeds is on a requested route, both lists are empty. |
| Mta.EntryAppended | mta.py:81-86 | A kept update appends its entry to the list of its own direction. The other list is unchanged. |
| Mta.TrainPhrases | mta.py:113-120 | The phrase loop gives one phrase per train, in order. |
| Mta.FormatForSiri | mta.py:95-124 | `format_for_siri` returns exactly the spoken text defined in `Siri`. |
| Siri.TopThree | mta.py:105 | `trains[:3]` is the first three trains, or all of them when there are fewer. |
| Siri.RenderBoth | mta.py:99-124 | Without a direction, and with both lists present, the text is the northbound sentence, a space, then the southbound sentence. |
| Siri.BothNotFallback | mta.py:107-124 | A northbound and a southbound sentence joined by a space never equal the fallback sentence. |
| Siri.NorthboundHead | mta.py:107-122 | A northbound sentence starts with "Uptown" or with "No northbound". So it is longer than three characters, and its first character is 'U' or its fourth is 'n'. |
| Siri.RenderBothOneMissing | mta.py:99-124 | Without a direction, a missing key is skipped. With both missing the text is "No train information available.". |
| Siri.RenderOnly | mta.py:99-124 | With a direction that is in the dictionary, the text is that direction's sentence alone. |
| Siri.RenderUnknown | mta.py:99-124 | With a direction that is not in the dictionary, the text is "No train information available.". |
| Siri.SectionTopThree | mta.py:105 | Trains after the third never change a direction's sentence. |
| Siri.SectionEmpty | mta.py:107-109 | An empty list is spoken as "No {direction} trains scheduled.". |
| Siri.SectionNonEmpty | mta.py:111-122 | One, two or three or more trains are spoken as "{Uptown or Downtown}: " followed by those trains' phrases, in list order and joined by ", ", then ".". |
| Siri.PhraseSplit | mta.py:115-120 | Each phrase is the route, then " train ", then "arriving now", "in 1 minute" or "in {n} minutes". |
| Siri.PhraseTailInjective | mta.py:115-120 | Different minute values are spoken differently. |
| Siri.PhraseDeterminesMinutes | mta.py:115-120 | Two trains of one route get the same phrase only when they are equally far away. |
| Siri.IntToStringInjective | mta.py:120 | Different non-negative numbers print differently, and so do different negative ones. |
| Text.NatToString | mta.py:120 | The printed number is a non-empty string of decimal digits with no leading zero unless it is 0. |
| Text.DecimalRoundTrip | mta.py:120 | Reading the printed digits back gives the number. |
| Text.NatToStringInjective | mta.py:120 | Different numbers print differently. |
| Text.JoinCons | mta.py:122-124 | When at least one part follows the first, `str.join` gives the first part, exactly one separator, then the join of the remaining parts. |
| Text.LowerIgnoresCase | server.py:17-19 | With the model's ASCII case mapping, lower-casing ignores the case the text arrives in. Python's Unicode mapping does not promise this (see Left out). |
| Text.UpperIgnoresCase | server.py:18 | With the model's ASCII case mapping, upper-casing ignores the case the text arrives in. Python's Unicode mapping does not promise this (see Left out). |
| Server.DirectionParamCases | server.py:17-26 | "uptown", "northbound" or "north", in any case, give northbound. "downtown", "southbound" or "south" give southbound. Anything else, or no parameter, gives no direction. |
| Server.DirectionParamIgnoresCase | server.py:17 | With the model's ASCII case mapping, upper-casing the direction parameter does not change the direction. This fails in Python for some non-ASCII text (see Left out). |
| Server.TrainParamCases | server.py:18-31 | "a", "b" or "c", in any case, filter to that route alone. Anything else, or no parameter, means all three. The filter is always within A, B and C. |
| Server.TrainParamIgnoresCase | server.py:18 | The train parameter is case-insensitive. |
| Server.WantsJsonCases | server.py:19-36 | JSON is the answer exactly when the format parameter is "json" in some case. The default is text. |
| Server.NextTrain | server.py:17-40 | `next_train` maps the parameters, calls `get_arrivals` and then `format_for_siri` unless JSON is asked for, and gives exactly the answer `Respond` defines. |
| Server.RespondJson | server.py:33-36 | A JSON answer has both directions' lists. They hold only trains of the routes the train parameter selects, so only A, B or C trains, each with minutes >= 0. |
| Server.RespondTextBoth | server.py:22-39 | Text without a recognised direction is the northbound sentence, a space, then the southbound sentence. It is never the fallback sentence. |
| Server.RespondTextOne | server.py:21-39 | Text for a recognised direction is that direction's sentence alone. |
| Scenarios.SampleArrivals | mta.py:31-92 | There is one feed with an A train 240 s from the northbound platform and a C train departing southbound in 10 s, plus a failed feed. The result is northbound [A, 4] and southbound [C, 0]. |
| Scenarios.SampleText | server.py:17-39 | The same feeds with no parameters give "Uptown: A train in 4 minutes. Downtown: C train arriving now.". |
| Scenarios.SampleJson | server.py:19-36 | `format=JSON` gives the dictionary itself. |
| Scenarios.SampleDowntown | server.py:25-39 | `direction=Downtown` gives "Downtown: C train arriving now." alone, although a northbound train is due. |
| Scenarios.NoTrainsOfRoute | server.py:28-39 | `train=b` with feeds holding only A and C trips gives "No northbound trains scheduled. No southbound trains scheduled.". |

## Left out

- `fetch_feed` (mta.py:18-28) performs HTTP and protobuf decoding. Its result is the parameter `feeds`, where `None` is a failure. The `FEEDS` URLs and the log line are not modelled.
- `datetime.now()` and `datetime.fromtimestamp` are not modelled. `now` is a parameter in whole seconds, so the microseconds of the real `now` are not modelled. For a whole-second difference, `int(delta / 60)` is the truncated quotient that `MinutesAway` computes, but the float rounding of that division is not modelled.
- `now` and each stop time are compared as one count of seconds. The source subtracts two naive local datetimes (mta.py:38, mta.py:74-75), so across a daylight-saving change its minutes are off by an hour. On the fall-back night a train 20 minutes away reads -40 and is dropped. `datetime.fromtimestamp` also raises on a time out of the platform's range, which fails the whole request. Neither effect is modelled.
- `strftime("%-I:%M %p")` is the parameter `clock`, so the model says nothing about the time's format.
- `HasField("arrival")` becomes `arrival.Some?`. A `StopTimeEvent` that is present but has no `time` reads as time 0 in protobuf. The model expects the caller to pass `Some(0)` for it.
- `.lower()` and `.upper()` are modelled for ASCII letters only. Python folds the case of all Unicode letters.
- Text.LowerIgnoresCase: proved only for the ASCII mapping. In Python, `"ß".upper().lower()` is `"ss"` but `"ß".lower()` is `"ß"`.
- Text.UpperIgnoresCase: proved only for the ASCII mapping. In Python, `"\u212A".lower().upper()` (Kelvin sign) is `"K"` but `"\u212A".upper()` is `"\u212A"`.
- Server.DirectionParamIgnoresCase: proved only for the ASCII mapping. In Python, `direction=SOUTH` gives southbound, but `direction=ſouth` (long s), whose upper case is `SOUTH`, gives no direction. `DirectionParam`, `TrainParam` and `WantsJson` do agree with Python on every input: no non-ASCII character lower-cases into a direction word or "json", and none upper-cases to A, B or C.
- The Flask app is not modelled: routing, `jsonify`, the response headers and status, `/health` and the `__main__` blocks. `Server.Response` only tells JSON from text.
- Mta.GetArrivals: each level of the nested loops in `get_arrivals` is its own method (`AddFeedArrivals`, `AddTripArrivals`). The per-direction append to a mutable list is modelled as replacing the map entry.
- Mta.SortList: `list.sort` runs `ArrivalSort.SortInPlace` (insertion sort) on an array copy of the list. Python's Timsort is a different algorithm. The model captures only its result, which is the same because both sorts are stable.
- Mta.FormatForSiri: the inner loop that collects the phrases of `format_for_siri` is its own method, `TrainPhrases`.
- `int()` in `minutes_away` truncates toward zero; it does not floor. The model follows the code: a train 1 to 59 seconds gone is "0 minutes" and is kept, while a floor would give -1 and drop it.
