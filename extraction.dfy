/**
 * What `get_arrivals` extracts from the feeds (mta.py): which trips and
 * stop-time updates it keeps, which time it reads, how many minutes away
 * the train is and which direction it goes. The functions here follow the
 * loops of `get_arrivals` level by level (feeds, entities, stop-time
 * updates) and give, for each direction, the entries in the order the
 * loops append them. The method that runs those loops is `Mta.GetArrivals`.
 */
module Extraction {
  import opened Wrappers
  import opened Text
  import opened Gtfs

  /** 86th St - Central Park West */
  const StationId := "A24"

  /** The routes that stop at the station. */
  const RelevantRoutes: set<string> := {"A", "B", "C"}

  const North := "northbound"
  const South := "southbound"

  /** One entry of an arrivals list: `{"route", "minutes", "time"}`. */
  datatype Arrival = Arrival(route: string, minutes: int, time: string)

  /** `routes if routes else RELEVANT_ROUTES`: an empty set falls back like `None`. */
  function EffectiveRoutes(routes: Option<set<string>>): (r: set<string>)
    ensures routes.Some? && routes.value != {} ==> r == routes.value
    ensures routes.None? || routes.value == {} ==> r == RelevantRoutes
    ensures r != {}
  {
    if routes.Some? && routes.value != {} then routes.value else RelevantRoutes
  }

  /**
   * `int(delta / 60)` on a whole number of seconds: the quotient truncated
   * toward zero (Python's `int` of a float), not Dafny's Euclidean `/`.
   */
  function MinutesAway(delta: int): int
  {
    if delta >= 0 then delta / 60 else -((-delta) / 60)
  }

  /** `MinutesAway` is the quotient by 60 rounded toward zero. */
  lemma MinutesAwayTruncates(delta: int)
    ensures delta >= 0 ==> 0 <= MinutesAway(delta) && MinutesAway(delta) * 60 <= delta < MinutesAway(delta) * 60 + 60
    ensures delta < 0 ==> MinutesAway(delta) <= 0 && MinutesAway(delta) * 60 - 60 < delta <= MinutesAway(delta) * 60
  {
  }

  /** A train up to 59 seconds in the past is still 0 minutes away; one 60 seconds gone is dropped. */
  lemma MinutesAwayNonNegative(delta: int)
    ensures MinutesAway(delta) >= 0 <==> delta > -60
    ensures -60 < delta < 60 ==> MinutesAway(delta) == 0
  {
  }

  /** Prefer the arrival time, fall back to the departure time. */
  function EventTime(u: StopTimeUpdate): Option<int>
  {
    if u.arrival.Some? then u.arrival else u.departure
  }

  /** `"northbound" if stop_id.endswith("N") else "southbound"` */
  function DirectionOf(stopId: string): (d: string)
    ensures d == North <==> |stopId| > 0 && stopId[|stopId| - 1] == 'N'
    ensures d == North || d == South
  {
    if EndsWith(stopId, "N") then North else South
  }

  /**
   * The entry one stop-time update of a trip on `routeId` yields, if any:
   * none unless the stop is at the station, none without a time, none for
   * a train a minute or more gone.
   */
  function StopTimeArrival(routeId: string, u: StopTimeUpdate, now: int, clock: int -> string): Option<Arrival>
  {
    if !StartsWith(u.stopId, StationId) then None
    else
      match EventTime(u)
      case None => None
      case Some(t) =>
        var minutes := MinutesAway(t - now);
        if minutes < 0 then None else Some(Arrival(routeId, minutes, clock(t)))
  }

  /**
   * The cases of `StopTimeArrival`: the arrival time when there is one, the
   * departure time otherwise, nothing without either or off the station,
   * and nothing for a train 60 seconds or more gone.
   */
  lemma StopTimeArrivalCases(routeId: string, u: StopTimeUpdate, now: int, clock: int -> string)
    ensures !StartsWith(u.stopId, StationId) ==> StopTimeArrival(routeId, u, now, clock).None?
    ensures u.arrival.None? && u.departure.None? ==> StopTimeArrival(routeId, u, now, clock).None?
    ensures StartsWith(u.stopId, StationId) && u.arrival.Some? ==>
      var t := u.arrival.value;
      StopTimeArrival(routeId, u, now, clock) == if t - now > -60 then Some(Arrival(routeId, MinutesAway(t - now), clock(t))) else None
    ensures StartsWith(u.stopId, StationId) && u.arrival.None? && u.departure.Some? ==>
      var t := u.departure.value;
      StopTimeArrival(routeId, u, now, clock) == if t - now > -60 then Some(Arrival(routeId, MinutesAway(t - now), clock(t))) else None
    ensures StopTimeArrival(routeId, u, now, clock).Some? ==>
      StopTimeArrival(routeId, u, now, clock).value.route == routeId && StopTimeArrival(routeId, u, now, clock).value.minutes >= 0
  {
    match EventTime(u)
    case None =>
    case Some(t) => MinutesAwayNonNegative(t - now);
  }

  /** The update's chosen time `t` gives the entry. */
  lemma StopTimeArrivalKept(routeId: string, u: StopTimeUpdate, now: int, clock: int -> string, t: int, d: string)
    requires StartsWith(u.stopId, StationId) && EventTime(u) == Some(t) && MinutesAway(t - now) >= 0
    ensures FromStop(routeId, u, d, now, clock) ==
      if DirectionOf(u.stopId) == d then [Arrival(routeId, MinutesAway(t - now), clock(t))] else []
  {
  }

  /** An update off the station, without a time, or a minute or more gone gives nothing. */
  lemma StopTimeArrivalDropped(routeId: string, u: StopTimeUpdate, now: int, clock: int -> string, d: string)
    requires !StartsWith(u.stopId, StationId) || EventTime(u).None? || MinutesAway(EventTime(u).value - now) < 0
    ensures FromStop(routeId, u, d, now, clock) == []
  {
  }

  /** What one stop-time update appends to the list of direction `d`. */
  function FromStop(routeId: string, u: StopTimeUpdate, d: string, now: int, clock: int -> string): seq<Arrival>
  {
    match StopTimeArrival(routeId, u, now, clock)
    case None => []
    case Some(a) => if DirectionOf(u.stopId) == d then [a] else []
  }

  /** What the stop-time updates `us` of a trip on `routeId` append to direction `d`, in order. */
  function FromStops(routeId: string, us: seq<StopTimeUpdate>, d: string, now: int, clock: int -> string): seq<Arrival>
  {
    if |us| == 0 then []
    else FromStops(routeId, us[..|us| - 1], d, now, clock) + FromStop(routeId, us[|us| - 1], d, now, clock)
  }

  /** What one entity appends to direction `d`: nothing without a trip update or off the route filter. */
  function FromEntity(e: FeedEntity, routes: set<string>, d: string, now: int, clock: int -> string): seq<Arrival>
  {
    match e.tripUpdate
    case None => []
    case Some(trip) =>
      if trip.routeId in routes then FromStops(trip.routeId, trip.stopTimeUpdates, d, now, clock) else []
  }

  function FromEntities(es: seq<FeedEntity>, routes: set<string>, d: string, now: int, clock: int -> string): seq<Arrival>
  {
    if |es| == 0 then []
    else FromEntities(es[..|es| - 1], routes, d, now, clock) + FromEntity(es[|es| - 1], routes, d, now, clock)
  }

  /** What one fetch result appends to direction `d`: nothing when the fetch failed. */
  function FromFeed(feed: Option<FeedMessage>, routes: set<string>, d: string, now: int, clock: int -> string): seq<Arrival>
  {
    match feed
    case None => []
    case Some(f) => FromEntities(f.entities, routes, d, now, clock)
  }

  /** The list of direction `d` before sorting: every feed's entries, in feed order. */
  function Extracted(feeds: seq<Option<FeedMessage>>, routes: set<string>, d: string, now: int, clock: int -> string): seq<Arrival>
  {
    if |feeds| == 0 then []
    else Extracted(feeds[..|feeds| - 1], routes, d, now, clock) + FromFeed(feeds[|feeds| - 1], routes, d, now, clock)
  }

  // ----- one more step of each loop -----

  lemma FromStopsStep(routeId: string, us: seq<StopTimeUpdate>, k: nat, d: string, now: int, clock: int -> string)
    requires k < |us|
    ensures FromStops(routeId, us[..k + 1], d, now, clock) == FromStops(routeId, us[..k], d, now, clock) + FromStop(routeId, us[k], d, now, clock)
  {
    assert us[..k + 1][..k] == us[..k];
  }

  lemma FromEntitiesStep(es: seq<FeedEntity>, j: nat, routes: set<string>, d: string, now: int, clock: int -> string)
    requires j < |es|
    ensures FromEntities(es[..j + 1], routes, d, now, clock) == FromEntities(es[..j], routes, d, now, clock) + FromEntity(es[j], routes, d, now, clock)
  {
    assert es[..j + 1][..j] == es[..j];
  }

  lemma ExtractedStep(feeds: seq<Option<FeedMessage>>, i: nat, routes: set<string>, d: string, now: int, clock: int -> string)
    requires i < |feeds|
    ensures Extracted(feeds[..i + 1], routes, d, now, clock) == Extracted(feeds[..i], routes, d, now, clock) + FromFeed(feeds[i], routes, d, now, clock)
  {
    assert feeds[..i + 1][..i] == feeds[..i];
  }

  // ----- where an entry comes from -----

  /** Stop-time update `u` of a trip on `routeId` yields entry `a` in direction `d`. */
  ghost predicate StopYields(routeId: string, u: StopTimeUpdate, d: string, now: int, clock: int -> string, a: Arrival)
  {
    DirectionOf(u.stopId) == d && StopTimeArrival(routeId, u, now, clock) == Some(a)
  }

  /** Entity `e` has a trip on a filtered route with a stop-time update yielding `a` in direction `d`. */
  ghost predicate EntityYields(e: FeedEntity, routes: set<string>, d: string, now: int, clock: int -> string, a: Arrival)
  {
    && e.tripUpdate.Some?
    && e.tripUpdate.value.routeId in routes
    && exists u :: u in e.tripUpdate.value.stopTimeUpdates && StopYields(e.tripUpdate.value.routeId, u, d, now, clock, a)
  }

  /** Fetch result `feed` succeeded and has an entity yielding `a` in direction `d`. */
  ghost predicate FeedYields(feed: Option<FeedMessage>, routes: set<string>, d: string, now: int, clock: int -> string, a: Arrival)
  {
    feed.Some? && exists e :: e in feed.value.entities && EntityYields(e, routes, d, now, clock, a)
  }

  lemma {:induction false} FromStopsMembers(routeId: string, us: seq<StopTimeUpdate>, d: string, now: int, clock: int -> string, a: Arrival)
    ensures a in FromStops(routeId, us, d, now, clock) <==> exists u :: u in us && StopYields(routeId, u, d, now, clock, a)
  {
    if |us| > 0 {
      var init, last := us[..|us| - 1], us[|us| - 1];
      assert us == init + [last];
      FromStopsMembers(routeId, init, d, now, clock, a);
      assert FromStops(routeId, us, d, now, clock) == FromStops(routeId, init, d, now, clock) + FromStop(routeId, last, d, now, clock);
      assert a in FromStop(routeId, last, d, now, clock) <==> StopYields(routeId, last, d, now, clock, a);
      if a in FromStops(routeId, us, d, now, clock) {
        if a in FromStop(routeId, last, d, now, clock) {
          assert last in us;
        }
      } else {
        forall u | u in us ensures !StopYields(routeId, u, d, now, clock, a) {
          if u != last {
            assert u in init;
          }
        }
      }
    }
  }

  lemma {:induction false} FromEntitiesMembers(es: seq<FeedEntity>, routes: set<string>, d: string, now: int, clock: int -> string, a: Arrival)
    ensures a in FromEntities(es, routes, d, now, clock) <==> exists e :: e in es && EntityYields(e, routes, d, now, clock, a)
  {
    if |es| > 0 {
      var init, last := es[..|es| - 1], es[|es| - 1];
      assert es == init + [last];
      FromEntitiesMembers(init, routes, d, now, clock, a);
      assert FromEntities(es, routes, d, now, clock) == FromEntities(init, routes, d, now, clock) + FromEntity(last, routes, d, now, clock);
      assert a in FromEntity(last, routes, d, now, clock) <==> EntityYields(last, routes, d, now, clock, a) by {
        if last.tripUpdate.Some? {
          FromStopsMembers(last.tripUpdate.value.routeId, last.tripUpdate.value.stopTimeUpdates, d, now, clock, a);
        }
      }
      if a in FromEntities(es, routes, d, now, clock) {
        if a in FromEntity(last, routes, d, now, clock) {
          assert last in es;
        }
      } else {
        forall e | e in es ensures !EntityYields(e, routes, d, now, clock, a) {
          if e != last {
            assert e in init;
          }
        }
      }
    }
  }

  /**
   * An entry is in the list of direction `d` exactly when some successful
   * feed has a trip on a filtered route with a stop-time update that yields it.
   */
  lemma {:induction false} ExtractedMembers(feeds: seq<Option<FeedMessage>>, routes: set<string>, d: string, now: int, clock: int -> string, a: Arrival)
    ensures a in Extracted(feeds, routes, d, now, clock) <==> exists f :: f in feeds && FeedYields(f, routes, d, now, clock, a)
  {
    if |feeds| > 0 {
      var init, last := feeds[..|feeds| - 1], feeds[|feeds| - 1];
      assert feeds == init + [last];
      ExtractedMembers(init, routes, d, now, clock, a);
      assert Extracted(feeds, routes, d, now, clock) == Extracted(init, routes, d, now, clock) + FromFeed(last, routes, d, now, clock);
      assert a in FromFeed(last, routes, d, now, clock) <==> FeedYields(last, routes, d, now, clock, a) by {
        if last.Some? {
          FromEntitiesMembers(last.value.entities, routes, d, now, clock, a);
        }
      }
      if a in Extracted(feeds, routes, d, now, clock) {
        if a in FromFeed(last, routes, d, now, clock) {
          assert last in feeds;
        }
      } else {
        forall f | f in feeds ensures !FeedYields(f, routes, d, now, clock, a) {
          if f != last {
            assert f in init;
          }
        }
      }
    }
  }

  /**
   * Every extracted entry is on a filtered route, at least 0 minutes away,
   * and comes from an update of a trip in one of the fetched feeds: the
   * trip's route, a stop at the station whose suffix gives direction `d`,
   * and the minutes and clock time of that update's chosen time.
   */
  lemma ExtractedSound(feeds: seq<Option<FeedMessage>>, routes: set<string>, d: string, now: int, clock: int -> string, a: Arrival)
    requires a in Extracted(feeds, routes, d, now, clock)
    ensures a.route in routes && a.minutes >= 0
    ensures exists f, e, u ::
              && f in feeds && f.Some?
              && e in f.value.entities && e.tripUpdate.Some?
              && u in e.tripUpdate.value.stopTimeUpdates
              && a.route == e.tripUpdate.value.routeId
              && StartsWith(u.stopId, StationId)
              && DirectionOf(u.stopId) == d
              && EventTime(u).Some?
              && a.minutes == MinutesAway(EventTime(u).value - now)
              && a.time == clock(EventTime(u).value)
  {
    ExtractedMembers(feeds, routes, d, now, clock, a);
    var f :| f in feeds && FeedYields(f, routes, d, now, clock, a);
    var e :| e in f.value.entities && EntityYields(e, routes, d, now, clock, a);
    var trip := e.tripUpdate.value;
    var u :| u in trip.stopTimeUpdates && StopYields(trip.routeId, u, d, now, clock, a);
    assert StartsWith(u.stopId, StationId) && EventTime(u).Some?;
    assert a.route == trip.routeId && a.time == clock(EventTime(u).value);
  }

  // ----- how the feeds combine -----

  /** The feeds' entries concatenate: each feed contributes independently of the others. */
  lemma ExtractedSnoc(xs: seq<Option<FeedMessage>>, f: Option<FeedMessage>, routes: set<string>, d: string, now: int, clock: int -> string)
    ensures Extracted(xs + [f], routes, d, now, clock) == Extracted(xs, routes, d, now, clock) + FromFeed(f, routes, d, now, clock)
  {
    assert (xs + [f])[..|xs|] == xs;
  }

  /** The feeds' entries concatenate: each feed contributes independently of the others. */
  lemma {:induction false} ExtractedAppend(xs: seq<Option<FeedMessage>>, ys: seq<Option<FeedMessage>>, routes: set<string>, d: string, now: int, clock: int -> string)
    ensures Extracted(xs + ys, routes, d, now, clock) == Extracted(xs, routes, d, now, clock) + Extracted(ys, routes, d, now, clock)
    decreases |ys|
  {
    if |ys| == 0 {
      assert xs + ys == xs;
    } else {
      var init, last := ys[..|ys| - 1], ys[|ys| - 1];
      assert xs + ys == (xs + init) + [last];
      ExtractedAppend(xs, init, routes, d, now, clock);
      ExtractedSnoc(xs + init, last, routes, d, now, clock);
      assert Extracted(ys, routes, d, now, clock) == Extracted(init, routes, d, now, clock) + FromFeed(last, routes, d, now, clock);
      AppendAssoc(Extracted(xs, routes, d, now, clock), Extracted(init, routes, d, now, clock), FromFeed(last, routes, d, now, clock));
    }
  }

  /** A failed fetch contributes nothing and leaves the other feeds' entries, and their order, as they are. */
  lemma FailedFeedIgnored(xs: seq<Option<FeedMessage>>, ys: seq<Option<FeedMessage>>, routes: set<string>, d: string, now: int, clock: int -> string)
    ensures Extracted(xs + [None] + ys, routes, d, now, clock) == Extracted(xs + ys, routes, d, now, clock)
  {
    ExtractedAppend(xs + [None], ys, routes, d, now, clock);
    ExtractedAppend(xs, [None], routes, d, now, clock);
    ExtractedAppend(xs, ys, routes, d, now, clock);
    var none: seq<Option<FeedMessage>> := [None];
    assert none[..0] == [];
  }

  /** Each stop-time update yields at most one entry, in one direction only. */
  lemma {:induction false} AtMostOnePerStop(routeId: string, us: seq<StopTimeUpdate>, now: int, clock: int -> string)
    ensures |FromStops(routeId, us, North, now, clock)| + |FromStops(routeId, us, South, now, clock)| <= |us|
  {
    if |us| > 0 {
      AtMostOnePerStop(routeId, us[..|us| - 1], now, clock);
    }
  }
}
