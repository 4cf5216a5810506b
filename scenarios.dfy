/**
 * Worked requests: one feed with an uptown A train four minutes out and
 * a downtown C train due now, and what the endpoint answers for it.
 */
module Scenarios {
  import opened Wrappers
  import opened Text
  import opened Gtfs
  import opened Extraction
  import opened ArrivalSort
  import opened Siri
  import opened Mta
  import opened Server

  const Now: int := 1000

  /** An A train passing 72 St and reaching the northbound platform in 240 seconds. */
  const PastStop: StopTimeUpdate := StopTimeUpdate("A22N", Some(1100), None)
  const Uptown: StopTimeUpdate := StopTimeUpdate("A24N", Some(1240), None)
  const TripA: TripUpdate := TripUpdate("A", [PastStop, Uptown])

  /** A C train with only a departure time, leaving the southbound platform in 10 seconds. */
  const Downtown: StopTimeUpdate := StopTimeUpdate("A24S", None, Some(1010))
  const TripC: TripUpdate := TripUpdate("C", [Downtown])

  /** The feed's entities; the middle one carries no trip update. */
  const SampleEntities: seq<FeedEntity> := [FeedEntity(Some(TripA)), FeedEntity(None), FeedEntity(Some(TripC))]

  /** The ACE feed came back; the other feed could not be fetched. */
  const SampleFeeds: seq<Option<FeedMessage>> := [Some(FeedMessage(SampleEntities)), None]

  /** The sample's entries, with the times `clock` gives them. */
  function Sample(clock: int -> string): map<string, seq<Arrival>>
  {
    Bins([Arrival("A", 4, clock(1240))], [Arrival("C", 0, clock(1010))])
  }

  lemma StopsOfTripA(d: string, clock: int -> string)
    ensures FromStops("A", TripA.stopTimeUpdates, d, Now, clock) ==
      if d == North then [Arrival("A", 4, clock(1240))] else []
  {
    var us := TripA.stopTimeUpdates;
    assert !StartsWith(PastStop.stopId, StationId) by { assert PastStop.stopId[..3][2] == '2'; }
    StopTimeArrivalDropped("A", PastStop, Now, clock, d);
    assert StartsWith(Uptown.stopId, StationId) by { assert Uptown.stopId[..3] == StationId; }
    assert MinutesAway(1240 - Now) == 4;
    StopTimeArrivalKept("A", Uptown, Now, clock, 1240, d);
    assert DirectionOf(Uptown.stopId) == North;
    FromStopsStep("A", us, 0, d, Now, clock);
    FromStopsStep("A", us, 1, d, Now, clock);
    assert us[..0] == [];
    assert us[..2] == us;
  }

  lemma StopsOfTripC(d: string, clock: int -> string)
    ensures FromStops("C", TripC.stopTimeUpdates, d, Now, clock) ==
      if d == South then [Arrival("C", 0, clock(1010))] else []
  {
    var us := TripC.stopTimeUpdates;
    assert StartsWith(Downtown.stopId, StationId) by { assert Downtown.stopId[..3] == StationId; }
    assert MinutesAway(1010 - Now) == 0;
    StopTimeArrivalKept("C", Downtown, Now, clock, 1010, d);
    assert DirectionOf(Downtown.stopId) == South;
    FromStopsStep("C", us, 0, d, Now, clock);
    assert us[..0] == [];
    assert us[..1] == us;
  }

  lemma EntitiesOfThree(e0: FeedEntity, e1: FeedEntity, e2: FeedEntity, routes: set<string>, d: string, now: int, clock: int -> string)
    ensures FromEntities([e0, e1, e2], routes, d, now, clock) ==
      FromEntity(e0, routes, d, now, clock) + FromEntity(e1, routes, d, now, clock) + FromEntity(e2, routes, d, now, clock)
  {
    var es, one, two := [e0, e1, e2], [e0], [e0, e1];
    var r0, r1, r2 := FromEntity(e0, routes, d, now, clock), FromEntity(e1, routes, d, now, clock), FromEntity(e2, routes, d, now, clock);
    assert one[..0] == [];
    EmptyAppend(r0);
    assert FromEntities(one, routes, d, now, clock) == r0;
    assert two[..1] == one;
    assert FromEntities(two, routes, d, now, clock) == r0 + r1;
    assert es[..2] == two;
  }

  lemma SampleEntitiesYield(d: string, clock: int -> string)
    ensures FromEntities(SampleEntities, RelevantRoutes, d, Now, clock) ==
      FromStops("A", TripA.stopTimeUpdates, d, Now, clock) + FromStops("C", TripC.stopTimeUpdates, d, Now, clock)
  {
    var e0, e1, e2 := FeedEntity(Some(TripA)), FeedEntity(None), FeedEntity(Some(TripC));
    var a := FromStops("A", TripA.stopTimeUpdates, d, Now, clock);
    EntitiesOfThree(e0, e1, e2, RelevantRoutes, d, Now, clock);
    AppendEmpty(a);
  }

  lemma SampleExtracted(d: string, clock: int -> string)
    ensures Extracted(SampleFeeds, RelevantRoutes, d, Now, clock) ==
      FromStops("A", TripA.stopTimeUpdates, d, Now, clock) + FromStops("C", TripC.stopTimeUpdates, d, Now, clock)
  {
    var found := FromEntities(SampleEntities, RelevantRoutes, d, Now, clock);
    SampleEntitiesYield(d, clock);
    ExtractedOfTwo(Some(FeedMessage(SampleEntities)), None, RelevantRoutes, d, Now, clock);
    AppendEmpty(found);
  }

  lemma ExtractedOfTwo(f0: Option<FeedMessage>, f1: Option<FeedMessage>, routes: set<string>, d: string, now: int, clock: int -> string)
    ensures Extracted([f0, f1], routes, d, now, clock) == FromFeed(f0, routes, d, now, clock) + FromFeed(f1, routes, d, now, clock)
  {
    var fs, one := [f0, f1], [f0];
    var r0 := FromFeed(f0, routes, d, now, clock);
    assert one[..0] == [];
    EmptyAppend(r0);
    assert Extracted(one, routes, d, now, clock) == r0;
    assert fs[..1] == one;
  }

  /** The dictionary: one entry each way, the failed feed adding nothing. */
  lemma SampleArrivals(clock: int -> string)
    ensures ArrivalsOf(SampleFeeds, None, Now, clock) == Sample(clock)
  {
    var n, m := Arrival("A", 4, clock(1240)), Arrival("C", 0, clock(1010));
    SampleNorthbound(clock);
    SampleSouthbound(clock);
    SortOne(n);
    SortOne(m);
    assert EffectiveRoutes(None) == RelevantRoutes;
  }

  lemma SampleNorthbound(clock: int -> string)
    ensures Extracted(SampleFeeds, RelevantRoutes, North, Now, clock) == [Arrival("A", 4, clock(1240))]
  {
    SampleExtracted(North, clock);
    StopsOfTripA(North, clock);
    StopsOfTripC(North, clock);
  }

  lemma SampleSouthbound(clock: int -> string)
    ensures Extracted(SampleFeeds, RelevantRoutes, South, Now, clock) == [Arrival("C", 0, clock(1010))]
  {
    SampleExtracted(South, clock);
    StopsOfTripA(South, clock);
    StopsOfTripC(South, clock);
  }

  lemma SortOne(x: Arrival)
    ensures SortByMinutes([x]) == [x]
  {
    assert [x][..0] == [];
  }

  /** With no format parameter and no train parameter, text about `Sample` is answered. */
  lemma SampleDefaults(direction: Option<string>, clock: int -> string)
    ensures Respond(Query(direction, None, None), SampleFeeds, Now, clock) ==
      PlainText(SiriText(Sample(clock), DirectionParam(direction)))
  {
    SampleArrivals(clock);
    WantsJsonCases(None);
    assert TrainParam(None) == None by { assert Upper("") == ""; }
  }

  lemma SampleUptownSection(clock: int -> string)
    ensures Section(North, Sample(clock)[North]) == "Uptown: A train in 4 minutes."
  {
    var n := Arrival("A", 4, clock(1240));
    SectionNonEmpty(North, [n]);
    UptownPhrase(n);
    UptownSpelled();
  }

  lemma UptownPhrase(n: Arrival)
    requires n.route == "A" && n.minutes == 4
    ensures Phrase(n) == "A train in 4 minutes"
  {
    assert IntToString(4) == "4";
  }

  lemma UptownSpelled()
    ensures "Uptown" + ": " + "A train in 4 minutes" + "." == "Uptown: A train in 4 minutes."
  {
  }

  lemma SampleDowntownSection(clock: int -> string)
    ensures Section(South, Sample(clock)[South]) == "Downtown: C train arriving now."
  {
    var m := Arrival("C", 0, clock(1010));
    SectionNonEmpty(South, [m]);
    DowntownPhrase(m);
    DowntownSpelled();
  }

  lemma DowntownPhrase(m: Arrival)
    requires m.route == "C" && m.minutes == 0
    ensures Phrase(m) == "C train arriving now"
  {
  }

  lemma DowntownSpelled()
    ensures "Downtown" + ": " + "C train arriving now" + "." == "Downtown: C train arriving now."
  {
  }

  /** Without parameters the answer is text about both directions. */
  lemma SampleText(clock: int -> string)
    ensures Respond(Query(None, None, None), SampleFeeds, Now, clock) ==
      PlainText("Uptown: A train in 4 minutes. Downtown: C train arriving now.")
  {
    SampleDefaults(None, clock);
    DirectionParamCases(None);
    RenderBoth(Sample(clock), None);
    SampleUptownSection(clock);
    SampleDowntownSection(clock);
    BothSpelled();
  }

  lemma BothSpelled()
    ensures "Uptown: A train in 4 minutes." + " " + "Downtown: C train arriving now." ==
      "Uptown: A train in 4 minutes. Downtown: C train arriving now."
  {
  }

  /** `format=JSON` answers with the dictionary itself. */
  lemma SampleJson(clock: int -> string)
    ensures Respond(Query(None, None, Some("JSON")), SampleFeeds, Now, clock) == Json(Sample(clock))
  {
    SampleArrivals(clock);
    JsonLower();
    assert TrainParam(None) == None by { assert Upper("") == ""; }
  }

  lemma DowntownParam()
    ensures DirectionParam(Some("Downtown")) == Some(South)
  {
    assert Lower("Downtown") == "downtown" by { assert LowerChar('D') == 'd'; }
  }

  lemma JsonLower()
    ensures Lower("JSON") == "json"
  {
    assert LowerChar('J') == 'j' && LowerChar('S') == 's' && LowerChar('O') == 'o' && LowerChar('N') == 'n';
  }

  /** `direction=Downtown` speaks of the southbound platform alone, although an uptown train is due. */
  lemma SampleDowntown(clock: int -> string)
    ensures Respond(Query(Some("Downtown"), None, None), SampleFeeds, Now, clock) ==
      PlainText("Downtown: C train arriving now.")
  {
    SampleDefaults(Some("Downtown"), clock);
    DowntownParam();
    RenderOnly(Sample(clock), South);
    SampleDowntownSection(clock);
  }

  lemma TrainLower()
    ensures TrainParam(Some("b")) == Some({"B"})
  {
    assert Upper("b") == "B" by { assert UpperChar('b') == 'B'; }
  }

  lemma NoTrainsSpelled()
    ensures Section(North, []) + " " + Section(South, []) ==
      "No northbound trains scheduled. No southbound trains scheduled."
  {
    NorthEmptySpelled();
    SouthEmptySpelled();
    NoTrainsJoined();
  }

  lemma NorthEmptySpelled()
    ensures Section(North, []) == "No northbound trains scheduled."
  {
    SectionEmpty(North);
  }

  lemma SouthEmptySpelled()
    ensures Section(South, []) == "No southbound trains scheduled."
  {
    SectionEmpty(South);
  }

  lemma NoTrainsJoined()
    ensures "No northbound trains scheduled." + " " + "No southbound trains scheduled." ==
      "No northbound trains scheduled. No southbound trains scheduled."
  {
  }

  /** `train=b` when the feeds hold only A and C trips: both directions report no trains. */
  lemma NoTrainsOfRoute(feeds: seq<Option<FeedMessage>>, now: int, clock: int -> string)
    requires forall f, e :: Some(f) in feeds && e in f.entities && e.tripUpdate.Some? ==>
      e.tripUpdate.value.routeId in {"A", "C"}
    ensures Respond(Query(None, Some("b"), None), feeds, now, clock) ==
      PlainText("No northbound trains scheduled. No southbound trains scheduled.")
  {
    TrainLower();
    NoRequestedTrips(feeds, Some({"B"}), now, clock);
    DirectionParamCases(None);
    WantsJsonCases(None);
    NoTrainsText();
  }

  /** With both lists empty, each direction gets its "No ... trains scheduled." sentence. */
  lemma NoTrainsText()
    ensures SiriText(Bins([], []), None) == "No northbound trains scheduled. No southbound trains scheduled."
  {
    RenderBoth(Bins([], []), None);
    NoTrainsSpelled();
  }
}
