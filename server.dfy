/**
 * The `/next-train` endpoint: how its query parameters become the
 * arguments of `get_arrivals` and `format_for_siri`, and the choice
 * between the raw dictionary and the spoken text.
 */
module Server {
  import opened Wrappers
  import opened Text
  import opened Gtfs
  import opened Extraction
  import opened ArrivalSort
  import opened Siri
  import opened Mta

  /** The three optional query parameters of a request. */
  datatype Query = Query(direction: Option<string>, train: Option<string>, format: Option<string>)

  /** The answer: the dictionary as JSON, or the spoken text as plain text. */
  datatype Response = Json(arrivals: map<string, seq<Arrival>>) | PlainText(body: string)

  const UptownWords: set<string> := {"uptown", "northbound", "north"}
  const DowntownWords: set<string> := {"downtown", "southbound", "south"}
  const TrainWords: set<string> := {"A", "B", "C"}

  /** A query parameter, or `default` when it is absent. */
  function ArgOr(arg: Option<string>, default: string): string
  {
    if arg.Some? then arg.value else default
  }

  /** The direction passed to `format_for_siri`; `None` asks for both. */
  function DirectionParam(arg: Option<string>): Option<string>
  {
    var p := Lower(ArgOr(arg, ""));
    if p in UptownWords then Some(North)
    else if p in DowntownWords then Some(South)
    else None
  }

  /** The route filter passed to `get_arrivals`; `None` asks for every route of the station. */
  function TrainParam(arg: Option<string>): Option<set<string>>
  {
    var p := Upper(ArgOr(arg, ""));
    if p in TrainWords then Some({p}) else None
  }

  /** Whether the raw dictionary is asked for; plain text is the default. */
  predicate WantsJson(arg: Option<string>)
  {
    Lower(ArgOr(arg, "text")) == "json"
  }

  /** The response `next_train` gives to query `q` when the fetches came back as `feeds`. */
  function Respond(q: Query, feeds: seq<Option<FeedMessage>>, now: int, clock: int -> string): Response
  {
    var arrivals := ArrivalsOf(feeds, TrainParam(q.train), now, clock);
    if WantsJson(q.format) then Json(arrivals)
    else PlainText(SiriText(arrivals, DirectionParam(q.direction)))
  }

  /** `next_train`: map the parameters, collect the arrivals, answer in the requested format. */
  method NextTrain(q: Query, feeds: seq<Option<FeedMessage>>, now: int, clock: int -> string) returns (r: Response)
    ensures r == Respond(q, feeds, now, clock)
  {
    var directionParam := Lower(ArgOr(q.direction, ""));
    var trainParam := Upper(ArgOr(q.train, ""));
    var outputFormat := Lower(ArgOr(q.format, "text"));

    var direction: Option<string> := None;
    if directionParam in UptownWords {
      direction := Some(North);
    } else if directionParam in DowntownWords {
      direction := Some(South);
    }

    var routes: Option<set<string>> := None;
    if trainParam in TrainWords {
      routes := Some({trainParam});
    }

    var arrivals := GetArrivals(feeds, routes, now, clock);

    if outputFormat == "json" {
      return Json(arrivals);
    }

    var responseText := FormatForSiri(arrivals, direction);
    return PlainText(responseText);
  }

  // ----- the parameter mapping -----

  /**
   * Each word for a direction, in any case, names it; every other value,
   * and an absent parameter, asks for both directions.
   */
  lemma DirectionParamCases(arg: Option<string>)
    ensures DirectionParam(arg) == Some(North) <==> arg.Some? && Lower(arg.value) in UptownWords
    ensures DirectionParam(arg) == Some(South) <==> arg.Some? && Lower(arg.value) in DowntownWords
    ensures DirectionParam(arg) == None <==>
      arg.None? || (Lower(arg.value) !in UptownWords && Lower(arg.value) !in DowntownWords)
  {
    if arg.None? {
      assert Lower("") == "";
    }
  }

  lemma DirectionParamIgnoresCase(s: string)
    ensures DirectionParam(Some(Upper(s))) == DirectionParam(Some(s))
  {
    LowerIgnoresCase(s);
  }

  /** A route letter in any case selects that route alone; every other value, and an absent parameter, selects all three. */
  lemma TrainParamCases(arg: Option<string>)
    ensures arg.Some? && Upper(arg.value) in TrainWords ==> EffectiveRoutes(TrainParam(arg)) == {Upper(arg.value)}
    ensures arg.None? || Upper(arg.value) !in TrainWords ==> EffectiveRoutes(TrainParam(arg)) == RelevantRoutes
    ensures EffectiveRoutes(TrainParam(arg)) <= RelevantRoutes
  {
    if arg.None? {
      assert Upper("") == "";
    }
  }

  lemma TrainParamIgnoresCase(s: string)
    ensures TrainParam(Some(Lower(s))) == TrainParam(Some(s))
  {
    UpperIgnoresCase(s);
  }

  /** JSON is chosen exactly when the format parameter reads "json" in some case; without one, text. */
  lemma WantsJsonCases(arg: Option<string>)
    ensures WantsJson(arg) <==> arg.Some? && Lower(arg.value) == "json"
  {
    if arg.None? {
      assert Lower("text") == "text";
    }
  }

  // ----- what the endpoint answers -----

  /**
   * A JSON answer is the dictionary of `get_arrivals`, with both
   * directions, holding only trains of the routes the train parameter
   * selects (the one named route, or all three of the station).
   */
  lemma RespondJson(q: Query, feeds: seq<Option<FeedMessage>>, now: int, clock: int -> string)
    requires q.format.Some? && Lower(q.format.value) == "json"
    ensures Respond(q, feeds, now, clock).Json?
    ensures Respond(q, feeds, now, clock).arrivals.Keys == {North, South}
    ensures forall d, a: Arrival :: d in Respond(q, feeds, now, clock).arrivals && a in Respond(q, feeds, now, clock).arrivals[d] ==>
      a.route in EffectiveRoutes(TrainParam(q.train)) && a.route in RelevantRoutes && a.minutes >= 0
  {
    WantsJsonCases(q.format);
    ArrivalsProperties(feeds, TrainParam(q.train), now, clock, North);
    ArrivalsProperties(feeds, TrainParam(q.train), now, clock, South);
    TrainParamCases(q.train);
  }

  /**
   * A text answer without a recognised direction speaks of both
   * directions, northbound first: never the fallback sentence, since
   * `get_arrivals` always lists both.
   */
  lemma RespondTextBoth(q: Query, feeds: seq<Option<FeedMessage>>, now: int, clock: int -> string)
    requires !WantsJson(q.format) && DirectionParam(q.direction).None?
    ensures Respond(q, feeds, now, clock) ==
      PlainText(Section(North, ArrivalsOf(feeds, TrainParam(q.train), now, clock)[North]) + " " +
                Section(South, ArrivalsOf(feeds, TrainParam(q.train), now, clock)[South]))
    ensures Respond(q, feeds, now, clock).body != Fallback
  {
    var arrivals := ArrivalsOf(feeds, TrainParam(q.train), now, clock);
    RenderBoth(arrivals, None);
    BothNotFallback(arrivals[North], arrivals[South]);
  }

  /** A text answer for a recognised direction speaks of that direction alone, whatever the other holds. */
  lemma RespondTextOne(q: Query, feeds: seq<Option<FeedMessage>>, now: int, clock: int -> string)
    requires !WantsJson(q.format) && DirectionParam(q.direction).Some?
    ensures DirectionParam(q.direction).value in {North, South}
    ensures Respond(q, feeds, now, clock) ==
      PlainText(Section(DirectionParam(q.direction).value,
                        ArrivalsOf(feeds, TrainParam(q.train), now, clock)[DirectionParam(q.direction).value]))
  {
    var d := DirectionParam(q.direction).value;
    assert d == North || d == South;
    RenderOnly(ArrivalsOf(feeds, TrainParam(q.train), now, clock), d);
  }
}
