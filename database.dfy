/**
 * The server's user-trip store: trips kept in insertion order (the
 * `user_trips` collection), looked up by the first trip with a given id,
 * and the server's progress percentage of a stored completion map.
 */
module Database {
  import opened Wrappers
  import opened Models
  import opened Progress

  /**
   * `calculate_progress_percentage` in tenths of a percent: 0 for an empty
   * map, otherwise the true flags over ALL stored keys (true or false),
   * rounded to one decimal.
   */
  function ProgressTenths(completed: CompletionMap): (tenths: nat)
    ensures completed == map[] ==> tenths == 0
    ensures tenths <= 1000
    ensures completed != map[] ==>
      2 * tenths * |completed| <= 2000 * CountTrue(completed) + |completed| < 2 * (tenths + 1) * |completed|
  {
    if completed == map[] then 0
    else
      var total := |completed|;
      var share := RoundHalfUp(1000 * CountTrue(completed), total);
      RoundedShareAtMostWhole(share, CountTrue(completed), total, 1000);
      share
  }

  /** A non-empty map whose flags are all true is exactly 100.0 percent. */
  lemma AllTrueIsHundred(completed: CompletionMap)
    requires completed != map[]
    requires forall k :: k in completed ==> completed[k]
    ensures ProgressTenths(completed) == 1000
  {
    assert TrueKeys(completed) == completed.Keys;
    assert |completed.Keys| == |completed|;
    RoundWhole(1000, |completed|);
  }

  /** A stored false flag lowers the percentage: `{"0-0": true, "0-1": false}` is 50.0. */
  lemma FalseFlagsCount()
    ensures ProgressTenths(map["0-0" := true, "0-1" := false]) == 500
  {
    var m := map["0-0" := true, "0-1" := false];
    assert TrueKeys(m) == {"0-0"};
    assert m.Keys == {"0-0", "0-1"};
    assert RoundHalfUp(1000, 2) == 500;
  }

  /** The index of the first trip with id `id`, as `find_one` picks it. */
  function FirstWithId(trips: seq<UserTrip>, id: string): (r: Option<nat>)
    ensures r.None? <==> forall j :: 0 <= j < |trips| ==> trips[j].id != id
    ensures r.Some? ==> r.value < |trips| && trips[r.value].id == id
    ensures r.Some? ==> forall j :: 0 <= j < r.value ==> trips[j].id != id
  {
    if trips == [] then None
    else if trips[0].id == id then Some(0)
    else match FirstWithId(trips[1..], id)
      case None => None
      case Some(i) => Some(i + 1)
  }

  class TripStore {
    var trips: seq<UserTrip>

    constructor ()
      ensures trips == []
      ensures forall id :: GetUserTrip(id).None?
    {
      trips := [];
    }

    /** `get_user_trip`: the first stored trip with that id, or nothing. */
    function GetUserTrip(id: string): (found: Option<UserTrip>)
      reads this
      ensures found.None? <==> forall j :: 0 <= j < |trips| ==> trips[j].id != id
      ensures found.Some? ==> found.value.id == id && found.value in trips
    {
      match FirstWithId(trips, id)
      case None => None
      case Some(i) => Some(trips[i])
    }

    /**
     * `create_user_trip`: store the request as a new trip with the fresh
     * `id`, an empty completion map and the share token `token`.
     */
    method CreateUserTrip(request: UserTripCreate, id: string, token: string) returns (trip: UserTrip)
      modifies this
      ensures trip == FromCreate(request, id).(shareToken := Some(token))
      ensures trip.completedActivities == map[] && trip.shareToken == Some(token)
      ensures trips == old(trips) + [trip]
      ensures GetUserTrip(id).Some?
      ensures (forall j :: 0 <= j < |old(trips)| ==> old(trips)[j].id != id) ==> GetUserTrip(id) == Some(trip)
      ensures forall other :: other != id ==> GetUserTrip(other) == old(GetUserTrip(other))
    {
      trip := FromCreate(request, id).(shareToken := Some(token));
      trips := trips + [trip];
      assert trips[|trips| - 1] == trip;
      forall other | other != id ensures GetUserTrip(other) == old(GetUserTrip(other)) {
        assert forall j :: 0 <= j < |old(trips)| ==> trips[j] == old(trips)[j];
      }
    }

    /**
     * `update_trip_progress`: overwrite the first matching trip's completion
     * map with the update's map, wholesale. The updated trip is returned
     * only when a document was modified: not for an unknown id, and not
     * when the map sent equals the one stored.
     */
    method UpdateTripProgress(id: string, update: UserTripUpdate) returns (updated: Option<UserTrip>)
      modifies this
      ensures FirstWithId(old(trips), id).None? ==> trips == old(trips) && updated == None
      ensures FirstWithId(old(trips), id).Some? ==>
        var i := FirstWithId(old(trips), id).value;
        && trips == old(trips)[i := old(trips)[i].(completedActivities := update.completedActivities)]
        && updated == if old(trips)[i].completedActivities == update.completedActivities then None
                      else Some(trips[i])
      ensures updated.Some? ==> updated.value.id == id && updated.value.completedActivities == update.completedActivities
      ensures updated.Some? ==> GetUserTrip(id) == updated
    {
      match FirstWithId(trips, id) {
        case None =>
          updated := None;
        case Some(i) =>
          var modified := trips[i].completedActivities != update.completedActivities;
          trips := trips[i := trips[i].(completedActivities := update.completedActivities)];
          updated := if modified then GetUserTrip(id) else None;
      }
    }
  }
}
