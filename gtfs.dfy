/**
 * The part of a decoded GTFS Realtime `FeedMessage` that the arrival
 * pipeline reads. A protobuf sub-message that may be absent (`HasField`)
 * is an `Option`; an event time is in integer epoch seconds.
 */
module Gtfs {
  import opened Wrappers

  /**
   * One stop of a trip. `arrival` is `Some(t)` when the `arrival`
   * `StopTimeEvent` is present and carries time `t`; likewise `departure`.
   */
  datatype StopTimeUpdate = StopTimeUpdate(stopId: string, arrival: Option<int>, departure: Option<int>)

  /** A trip's route (`trip.route_id`) and its stop-time updates, in feed order. */
  datatype TripUpdate = TripUpdate(routeId: string, stopTimeUpdates: seq<StopTimeUpdate>)

  /** A feed entity; only its optional `trip_update` matters here. */
  datatype FeedEntity = FeedEntity(tripUpdate: Option<TripUpdate>)

  datatype FeedMessage = FeedMessage(entities: seq<FeedEntity>)
}
