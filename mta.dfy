/**
 * `get_arrivals` and `format_for_siri` (mta.py) as the loops they are.
 * `GetArrivals` walks the fetch results, their entities and their
 * stop-time updates, appends each kept entry to the list of its direction
 * and sorts both lists; `FormatForSiri` accumulates the spoken sentences.
 * Each is proved equal to the functions of `Extraction`, `ArrivalSort`
 * and `Siri`, whose properties are proved there.
 */
module Mta {
  import opened Wrappers
  import opened Text
  import opened Gtfs
  import opened Extraction
  import opened ArrivalSort
  import opened Siri

  /** The arrivals dictionary with these two lists. */
  function Bins(northbound: seq<Arrival>, southbound: seq<Arrival>): map<string, seq<Arrival>>
  {
    map[North := northbound, South := southbound]
  }

  /** `arrivals` is the dictionary holding exactly these two lists. */
  predicate HasLists(arrivals: map<string, seq<Arrival>>, northbound: seq<Arrival>, southbound: seq<Arrival>)
  {
    arrivals.Keys == {North, South} && arrivals[North] == northbound && arrivals[South] == southbound
  }

  lemma BinsOf(arrivals: map<string, seq<Arrival>>)
    requires arrivals.Keys == {North, South}
    ensures arrivals == Bins(arrivals[North], arrivals[South])
  {
    var bins := Bins(arrivals[North], arrivals[South]);
    assert bins.Keys == {North, South};
    forall d | d in arrivals ensures arrivals[d] == bins[d] {
      assert d == North || d == South;
    }
  }

  /** What `get_arrivals` returns: each direction's entries, in feed order, sorted stably by minutes. */
  function ArrivalsOf(feeds: seq<Option<FeedMessage>>, routes: Option<set<string>>, now: int, clock: int -> string): map<string, seq<Arrival>>
  {
    var filter := EffectiveRoutes(routes);
    Bins(SortByMinutes(Extracted(feeds, filter, North, now, clock)),
         SortByMinutes(Extracted(feeds, filter, South, now, clock)))
  }

  /** `list.sort(key=lambda x: x["minutes"])`, run on an array holding the list. */
  method SortList(s: seq<Arrival>) returns (r: seq<Arrival>)
    ensures r == SortByMinutes(s)
  {
    var a := new Arrival[|s|](i requires 0 <= i < |s| => s[i]);
    assert a[..] == s;
    SortInPlace(a);
    r := a[..];
  }

  /**
   * What the dictionary `get_arrivals` returns promises: both directions
   * are present; each list is ordered by minutes and holds exactly the
   * entries extracted for its direction, those of equal minutes in feed
   * order; and every entry is a train of a requested route that has not
   * yet left.
   */
  lemma ArrivalsProperties(feeds: seq<Option<FeedMessage>>, routes: Option<set<string>>, now: int, clock: int -> string, d: string)
    ensures ArrivalsOf(feeds, routes, now, clock).Keys == {North, South}
    ensures d in ArrivalsOf(feeds, routes, now, clock) ==> SortedByMinutes(ArrivalsOf(feeds, routes, now, clock)[d])
    ensures d in ArrivalsOf(feeds, routes, now, clock) ==>
      multiset(ArrivalsOf(feeds, routes, now, clock)[d]) == multiset(Extracted(feeds, EffectiveRoutes(routes), d, now, clock))
    ensures d in ArrivalsOf(feeds, routes, now, clock) ==> forall k ::
      WithMinutes(ArrivalsOf(feeds, routes, now, clock)[d], k) == WithMinutes(Extracted(feeds, EffectiveRoutes(routes), d, now, clock), k)
    ensures d in ArrivalsOf(feeds, routes, now, clock) ==> forall a: Arrival :: a in ArrivalsOf(feeds, routes, now, clock)[d] ==>
      a.route in EffectiveRoutes(routes) && a.minutes >= 0
  {
    var arrivals := ArrivalsOf(feeds, routes, now, clock);
    if d in arrivals {
      var filter := EffectiveRoutes(routes);
      var extracted := Extracted(feeds, filter, d, now, clock);
      ArrivalsList(feeds, routes, now, clock, d);
      SortSorted(extracted);
      SortPermutes(extracted);
      forall k ensures WithMinutes(arrivals[d], k) == WithMinutes(extracted, k) {
        SortStable(extracted, k);
      }
      forall a: Arrival | a in arrivals[d] ensures a.route in filter && a.minutes >= 0 {
        assert a in multiset(arrivals[d]);
        ExtractedSound(feeds, filter, d, now, clock, a);
      }
    }
  }

  lemma ArrivalsList(feeds: seq<Option<FeedMessage>>, routes: Option<set<string>>, now: int, clock: int -> string, d: string)
    requires d in ArrivalsOf(feeds, routes, now, clock)
    ensures ArrivalsOf(feeds, routes, now, clock)[d] == SortByMinutes(Extracted(feeds, EffectiveRoutes(routes), d, now, clock))
  {
    assert d == North || d == South;
  }

  /** A feed that could not be fetched changes nothing in the dictionary. */
  lemma FailedFeedAbsorbed(xs: seq<Option<FeedMessage>>, ys: seq<Option<FeedMessage>>, routes: Option<set<string>>, now: int, clock: int -> string)
    ensures ArrivalsOf(xs + [None] + ys, routes, now, clock) == ArrivalsOf(xs + ys, routes, now, clock)
  {
    FailedFeedIgnored(xs, ys, EffectiveRoutes(routes), North, now, clock);
    FailedFeedIgnored(xs, ys, EffectiveRoutes(routes), South, now, clock);
  }

  /** An empty route filter is no filter: `routes if routes else RELEVANT_ROUTES` treats it like an absent one. */
  lemma EmptyFilterIsDefault(feeds: seq<Option<FeedMessage>>, now: int, clock: int -> string)
    ensures ArrivalsOf(feeds, Some({}), now, clock) == ArrivalsOf(feeds, None, now, clock)
  {
    assert EffectiveRoutes(Some({})) == EffectiveRoutes(None) == RelevantRoutes;
  }

  /** When no trip of any fetched feed is on a requested route, both lists are empty. */
  lemma NoRequestedTrips(feeds: seq<Option<FeedMessage>>, routes: Option<set<string>>, now: int, clock: int -> string)
    requires forall f, e :: Some(f) in feeds && e in f.entities && e.tripUpdate.Some? ==>
      e.tripUpdate.value.routeId !in EffectiveRoutes(routes)
    ensures ArrivalsOf(feeds, routes, now, clock) == Bins([], [])
  {
    var filter := EffectiveRoutes(routes);
    forall d | d == North || d == South
      ensures Extracted(feeds, filter, d, now, clock) == []
    {
      var xs := Extracted(feeds, filter, d, now, clock);
      if xs != [] {
        ExtractedMembers(feeds, filter, d, now, clock, xs[0]);
        assert false;
      }
    }
  }

  /** A stop-time update that yields no entry leaves both lists as they were. */
  lemma NothingAppended(routeId: string, u: StopTimeUpdate, now: int, clock: int -> string, stopsN: seq<Arrival>, stopsS: seq<Arrival>)
    requires !StartsWith(u.stopId, StationId) || EventTime(u).None? || MinutesAway(EventTime(u).value - now) < 0
    ensures stopsN + FromStop(routeId, u, North, now, clock) == stopsN
    ensures stopsS + FromStop(routeId, u, South, now, clock) == stopsS
  {
    StopTimeArrivalDropped(routeId, u, now, clock, North);
    StopTimeArrivalDropped(routeId, u, now, clock, South);
    AppendEmpty(stopsN);
    AppendEmpty(stopsS);
  }

  /** A kept stop-time update appends its entry to the list of its direction and to no other. */
  lemma EntryAppended(result: map<string, seq<Arrival>>, baseN: seq<Arrival>, baseS: seq<Arrival>,
                      stopsN: seq<Arrival>, stopsS: seq<Arrival>,
                      routeId: string, u: StopTimeUpdate, now: int, clock: int -> string, t: int)
    requires HasLists(result, baseN + stopsN, baseS + stopsS)
    requires StartsWith(u.stopId, StationId) && EventTime(u) == Some(t) && MinutesAway(t - now) >= 0
    ensures var d := DirectionOf(u.stopId);
      HasLists(result[d := result[d] + [Arrival(routeId, MinutesAway(t - now), clock(t))]],
               baseN + (stopsN + FromStop(routeId, u, North, now, clock)),
               baseS + (stopsS + FromStop(routeId, u, South, now, clock)))
  {
    var entry := Arrival(routeId, MinutesAway(t - now), clock(t));
    StopTimeArrivalKept(routeId, u, now, clock, t, North);
    StopTimeArrivalKept(routeId, u, now, clock, t, South);
    if DirectionOf(u.stopId) == North {
      AppendAssoc(baseN, stopsN, [entry]);
      AppendEmpty(stopsS);
    } else {
      AppendAssoc(baseS, stopsS, [entry]);
      AppendEmpty(stopsN);
    }
  }

  /**
   * The innermost loop of `get_arrivals`: append the entries the
   * stop-time updates `updates` of a trip on `routeId` yield.
   */
  method AddTripArrivals(arrivals: map<string, seq<Arrival>>, routeId: string, updates: seq<StopTimeUpdate>, now: int, clock: int -> string)
    returns (result: map<string, seq<Arrival>>)
    requires arrivals.Keys == {North, South}
    ensures HasLists(result, arrivals[North] + FromStops(routeId, updates, North, now, clock),
                             arrivals[South] + FromStops(routeId, updates, South, now, clock))
  {
    ghost var baseN, baseS := arrivals[North], arrivals[South];
    result := arrivals;
    assert updates[..0] == [];
    AppendEmpty(baseN);
    AppendEmpty(baseS);
    for k := 0 to |updates|
      invariant HasLists(result, baseN + FromStops(routeId, updates[..k], North, now, clock),
                                 baseS + FromStops(routeId, updates[..k], South, now, clock))
    {
      FromStopsStep(routeId, updates, k, North, now, clock);
      FromStopsStep(routeId, updates, k, South, now, clock);
      ghost var stopsN := FromStops(routeId, updates[..k], North, now, clock);
      ghost var stopsS := FromStops(routeId, updates[..k], South, now, clock);
      var stopTime := updates[k];
      var stopId := stopTime.stopId;
      if !StartsWith(stopId, StationId) {
        NothingAppended(routeId, stopTime, now, clock, stopsN, stopsS);
        continue;
      }
      var arrivalTime: int;
      if stopTime.arrival.Some? {
        arrivalTime := stopTime.arrival.value;
      } else if stopTime.departure.Some? {
        arrivalTime := stopTime.departure.value;
      } else {
        NothingAppended(routeId, stopTime, now, clock, stopsN, stopsS);
        continue;
      }
      assert EventTime(stopTime) == Some(arrivalTime);
      var minutesAway := MinutesAway(arrivalTime - now);
      if minutesAway < 0 {
        NothingAppended(routeId, stopTime, now, clock, stopsN, stopsS);
        continue;
      }
      var direction := DirectionOf(stopId);
      var entry := Arrival(routeId, minutesAway, clock(arrivalTime));
      EntryAppended(result, baseN, baseS, stopsN, stopsS, routeId, stopTime, now, clock, arrivalTime);
      result := result[direction := result[direction] + [entry]];
    }
    assert updates[..|updates|] == updates;
  }

  /**
   * The middle loop of `get_arrivals`: skip entities without a trip update
   * and trips off the route filter, and append what the others yield.
   */
  method AddFeedArrivals(arrivals: map<string, seq<Arrival>>, entities: seq<FeedEntity>, filterRoutes: set<string>, now: int, clock: int -> string)
    returns (result: map<string, seq<Arrival>>)
    requires arrivals.Keys == {North, South}
    ensures HasLists(result, arrivals[North] + FromEntities(entities, filterRoutes, North, now, clock),
                             arrivals[South] + FromEntities(entities, filterRoutes, South, now, clock))
  {
    ghost var baseN, baseS := arrivals[North], arrivals[South];
    result := arrivals;
    assert entities[..0] == [];
    AppendEmpty(baseN);
    AppendEmpty(baseS);
    for j := 0 to |entities|
      invariant HasLists(result, baseN + FromEntities(entities[..j], filterRoutes, North, now, clock),
                                 baseS + FromEntities(entities[..j], filterRoutes, South, now, clock))
    {
      FromEntitiesStep(entities, j, filterRoutes, North, now, clock);
      FromEntitiesStep(entities, j, filterRoutes, South, now, clock);
      ghost var doneN := FromEntities(entities[..j], filterRoutes, North, now, clock);
      ghost var doneS := FromEntities(entities[..j], filterRoutes, South, now, clock);
      var entity := entities[j];
      if entity.tripUpdate.None? {
        assert FromEntity(entity, filterRoutes, North, now, clock) == [];
        assert FromEntity(entity, filterRoutes, South, now, clock) == [];
        AppendEmpty(doneN);
        AppendEmpty(doneS);
        continue;
      }
      var trip := entity.tripUpdate.value;
      var routeId := trip.routeId;
      if routeId !in filterRoutes {
        assert FromEntity(entity, filterRoutes, North, now, clock) == [];
        assert FromEntity(entity, filterRoutes, South, now, clock) == [];
        AppendEmpty(doneN);
        AppendEmpty(doneS);
        continue;
      }
      ghost var stopsN := FromStops(routeId, trip.stopTimeUpdates, North, now, clock);
      ghost var stopsS := FromStops(routeId, trip.stopTimeUpdates, South, now, clock);
      assert FromEntity(entity, filterRoutes, North, now, clock) == stopsN;
      assert FromEntity(entity, filterRoutes, South, now, clock) == stopsS;
      result := AddTripArrivals(result, routeId, trip.stopTimeUpdates, now, clock);
      AppendAssoc(baseN, doneN, stopsN);
      AppendAssoc(baseS, doneS, stopsS);
    }
    assert entities[..|entities|] == entities;
  }

  /**
   * The arrivals at the station of trains on the requested routes, per
   * direction, soonest first. `feeds` holds the outcome of fetching each
   * configured feed (`None` for a failed fetch); `now` is the current time
   * and `clock` formats an epoch time as a clock time, both in seconds.
   */
  method GetArrivals(feeds: seq<Option<FeedMessage>>, routes: Option<set<string>>, now: int, clock: int -> string)
    returns (arrivals: map<string, seq<Arrival>>)
    ensures arrivals == ArrivalsOf(feeds, routes, now, clock)
  {
    arrivals := Bins([], []);
    var filterRoutes := EffectiveRoutes(routes);

    for i := 0 to |feeds|
      invariant HasLists(arrivals, Extracted(feeds[..i], filterRoutes, North, now, clock),
                                   Extracted(feeds[..i], filterRoutes, South, now, clock))
    {
      ExtractedStep(feeds, i, filterRoutes, North, now, clock);
      ExtractedStep(feeds, i, filterRoutes, South, now, clock);
      ghost var doneN := Extracted(feeds[..i], filterRoutes, North, now, clock);
      ghost var doneS := Extracted(feeds[..i], filterRoutes, South, now, clock);
      var feed := feeds[i];
      if feed.None? {
        AppendEmpty(doneN);
        AppendEmpty(doneS);
        continue;
      }
      arrivals := AddFeedArrivals(arrivals, feed.value.entities, filterRoutes, now, clock);
    }
    assert feeds[..|feeds|] == feeds;

    var northbound := SortList(arrivals[North]);
    arrivals := arrivals[North := northbound];
    var southbound := SortList(arrivals[South]);
    arrivals := arrivals[South := southbound];
    BinsOf(arrivals);
  }

  /** The inner loop of `format_for_siri`: one spoken phrase per train, in order. */
  method TrainPhrases(trains: seq<Arrival>) returns (trainStrs: seq<string>)
    ensures trainStrs == Phrases(trains)
  {
    trainStrs := [];
    for k := 0 to |trains|
      invariant |trainStrs| == k
      invariant forall m :: 0 <= m < k ==> trainStrs[m] == Phrase(trains[m])
    {
      var t := trains[k];
      if t.minutes == 0 {
        trainStrs := trainStrs + [t.route + " train arriving now"];
      } else if t.minutes == 1 {
        trainStrs := trainStrs + [t.route + " train in 1 minute"];
      } else {
        trainStrs := trainStrs + [t.route + " train in " + IntToString(t.minutes) + " minutes"];
      }
    }
  }

  /** The spoken summary of `arrivals`, for one direction or (when none is given) for both. */
  method FormatForSiri(arrivals: map<string, seq<Arrival>>, direction: Option<string>) returns (text: string)
    ensures text == SiriText(arrivals, direction)
  {
    var parts: seq<string> := [];
    var directions := if direction.Some? && direction.value != "" then [direction.value] else [North, South];

    for i := 0 to |directions|
      invariant parts == Sections(arrivals, directions[..i])
    {
      assert directions[..i + 1][..i] == directions[..i];
      var d := directions[i];
      if d !in arrivals {
        continue;
      }
      var trains := arrivals[d];
      trains := trains[..if |trains| < 3 then |trains| else 3];
      if |trains| == 0 {
        parts := parts + ["No " + d + " trains scheduled."];
        continue;
      }
      var dirLabel := if d == North then "Uptown" else "Downtown";
      var trainStrs := TrainPhrases(trains);
      assert trainStrs == Phrases(TopThree(arrivals[d]));
      parts := parts + [dirLabel + ": " + Join(", ", trainStrs) + "."];
    }
    assert directions[..|directions|] == directions;

    text := if |parts| > 0 then Join(" ", parts) else "No train information available.";
  }
}
