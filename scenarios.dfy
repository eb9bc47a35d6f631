/**
 * Facts that span more than one component: the planning flow feeding the
 * itinerary view, and the view's completion map as the server counts it.
 */
module Scenarios {
  import opened Wrappers
  import opened Models
  import opened ActivityKeys
  import opened Progress
  import opened DestinationInput
  import opened App
  import IV = ItineraryView
  import opened Database

  /**
   * A save that fails still reaches the itinerary, without a trip id; the
   * view then scopes progress locally and never sends it.
   */
  method FailedSaveScenario(trip: TripParams) returns (view: View, sent: bool, local: CompletionMap)
    ensures view == Itinerary
    ensures !sent
    ensures local == map[Key(0, 0) := true]
  {
    var app := new App();
    app.HandlePlanTrip(trip);
    app.HandleSelectBudget(Luxury, Failure("Failed to save trip"));
    view := app.currentView;
    var itinerary := new IV.ItineraryView(trip.destination, app.selectedBudget, app.savedTripId, map[]);
    sent := itinerary.ToggleCheck(0, 0);
    local := itinerary.storage[IV.ScopeKey(None)];
  }

  /**
   * From `{0-0: true}`, checking and unchecking an activity never toggled
   * before leaves the view's count as it was but halves what the server
   * reports, because the explicit false flag now counts in its denominator.
   */
  lemma DoubleToggleChangesServerPercentage()
    ensures var before := map["0-0" := true];
            var after := IV.Toggled(IV.Toggled(before, "0-1"), "0-1");
            && CountTrue(after) == CountTrue(before)
            && ProgressTenths(before) == 1000
            && ProgressTenths(after) == 500
  {
    var before := map["0-0" := true];
    var after := IV.Toggled(IV.Toggled(before, "0-1"), "0-1");
    IV.ToggleTwice(before, "0-1");
    AllTrueIsHundred(before);
    assert after == map["0-0" := true, "0-1" := false];
    FalseFlagsCount();
  }

  /**
   * On a four-activity plan the view divides by the plan's activities and
   * the server by the stored keys: 25% against 50.0%.
   */
  lemma ViewAndServerDenominatorsDiffer()
    ensures var a := Activity("09:00", "", "activity");
            var plan := BudgetPlan("", "", "", "", [], [DayItinerary(1, "", [a, a, a, a])]);
            var checked := map["0-0" := true, "0-1" := false];
            IV.CompletionStats(Some(plan), checked).percentage == 25 && ProgressTenths(checked) == 500
  {
    var a := Activity("09:00", "", "activity");
    var days := [DayItinerary(1, "", [a, a, a, a])];
    assert days[..0] == [];
    assert IV.TotalActivities(days) == 4;
    var checked := map["0-0" := true, "0-1" := false];
    assert TrueKeys(checked) == {"0-0"};
    assert RoundHalfUp(100, 4) == 25;
    FalseFlagsCount();
  }

  /**
   * No false flag is needed for the figures to differ: after the first
   * check on a four-activity plan the view shows 25% and the server 100.0%.
   */
  lemma FirstCheckServerReportsHundred()
    ensures var a := Activity("09:00", "", "activity");
            var plan := BudgetPlan("", "", "", "", [], [DayItinerary(1, "", [a, a, a, a])]);
            var checked := map["0-0" := true];
            IV.CompletionStats(Some(plan), checked).percentage == 25 && ProgressTenths(checked) == 1000
  {
    var a := Activity("09:00", "", "activity");
    var days := [DayItinerary(1, "", [a, a, a, a])];
    assert days[..0] == [];
    assert IV.TotalActivities(days) == 4;
    var checked := map["0-0" := true];
    assert TrueKeys(checked) == {"0-0"};
    assert RoundHalfUp(100, 4) == 25;
    AllTrueIsHundred(checked);
  }

  /** A map the view sends is what the server then stores and hands back. */
  method SentProgressIsStoredScenario(request: UserTripCreate) returns (stored: Option<CompletionMap>)
    ensures stored == Some(map[Key(2, 1) := true])
  {
    var store := new TripStore();
    var trip := store.CreateUserTrip(request, "trip-1", "token-1");
    var view := new IV.ItineraryView(request.destination, Some(Backpacker), Some(trip.id), map[]);
    var sent := view.ToggleCheck(2, 1);
    var updated := store.UpdateTripProgress(trip.id, UserTripUpdate(view.sentWrites[0]));
    stored := match store.GetUserTrip(trip.id)
      case Some(t) => Some(t.completedActivities)
      case None => None;
  }

  /**
   * The server's `/destinations/{destination_name}/plans` answer, keyed by
   * tier, gives the view the plan of the tier the user picked; with no
   * destination nothing is fetched and nothing is shown.
   */
  method ServerPlanReachesViewScenario(tp: TravelPlan, tier: Tier, destination: string)
    returns (shown: Option<BudgetPlan>)
    ensures shown == if destination != "" then Some(PlanFor(tp, tier)) else None
  {
    var view := new IV.ItineraryView(destination, Some(tier), None, map[]);
    var planFetched, progressFetched := view.LoadTravelData(Success(PlansByKey(tp)), Success(None));
    shown := view.travelData;
  }
}
