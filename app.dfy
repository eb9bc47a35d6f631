/**
 * The three-stage planning flow: destination, then budget tier, then
 * itinerary, held in four state fields whose combinations the flow keeps
 * consistent with the current view.
 */
module App {
  import opened Wrappers
  import opened Models
  import opened DestinationInput

  datatype View = Destination | Budget | Itinerary

  /** The body of the `saveTrip` request. */
  datatype SaveTripRequest = SaveTripRequest(
    destination: string, from: int, to: int, travelers: int, selectedBudget: Tier)

  /** The flow's stage, each with exactly what it carries. */
  datatype Stage =
    | AtDestination
    | AtBudget(trip: TripParams)
    | AtItinerary(trip: TripParams, tier: Tier, tripId: Option<string>)

  function RequestFor(trip: TripParams, tier: Tier): SaveTripRequest {
    SaveTripRequest(trip.destination, trip.from, trip.to, trip.travelers, tier)
  }

  /**
   * The application's state. `saveRequests` lists, in order, the trips sent
   * to the server for saving; it is the only remote effect of the flow.
   */
  class App {
    var tripData: Option<TripParams>
    var selectedBudget: Option<Tier>
    var savedTripId: Option<string>
    var currentView: View
    var saveRequests: seq<SaveTripRequest>

    /** Which fields are set is determined by the view. */
    ghost predicate Valid()
      reads this
    {
      && (currentView == Destination ==> tripData.None? && selectedBudget.None? && savedTripId.None?)
      && (currentView == Budget ==> tripData.Some? && selectedBudget.None? && savedTripId.None?)
      && (currentView == Itinerary ==> tripData.Some? && selectedBudget.Some?)
    }

    /** The four fields read as one stage. */
    ghost function Stage(): Stage
      reads this
      requires Valid()
    {
      match currentView
      case Destination => AtDestination
      case Budget => AtBudget(tripData.value)
      case Itinerary => AtItinerary(tripData.value, selectedBudget.value, savedTripId)
    }

    constructor ()
      ensures Valid() && Stage() == AtDestination
      ensures tripData == None && selectedBudget == None && savedTripId == None
      ensures saveRequests == []
    {
      tripData, selectedBudget, savedTripId := None, None, None;
      currentView := Destination;
      saveRequests := [];
    }

    /** Store the parameters and go to tier selection, forgetting any tier and trip id. */
    method HandlePlanTrip(data: TripParams)
      requires Valid()
      modifies this
      ensures Valid() && Stage() == AtBudget(data)
      ensures tripData == Some(data) && selectedBudget == None && savedTripId == None
      ensures saveRequests == old(saveRequests)
    {
      tripData := Some(data);
      currentView := Budget;
      selectedBudget := None;
      savedTripId := None;
    }

    /**
     * Send exactly one save request for the current parameters and the
     * chosen tier; `response` is its outcome, the new trip's id on success.
     * Either way the tier is set and the itinerary shows; a failed save
     * leaves the trip id as it was.
     */
    method HandleSelectBudget(budgetType: Tier, response: Result<string>)
      requires Valid() && tripData.Some?
      modifies this
      ensures Valid()
      ensures saveRequests == old(saveRequests) + [RequestFor(old(tripData).value, budgetType)]
      ensures tripData == old(tripData) && selectedBudget == Some(budgetType) && currentView == Itinerary
      ensures savedTripId == if response.Success? then Some(response.value) else old(savedTripId)
      ensures Stage() == AtItinerary(tripData.value, budgetType, savedTripId)
    {
      saveRequests := saveRequests + [RequestFor(tripData.value, budgetType)];
      match response {
        case Success(tripId) =>
          savedTripId := Some(tripId);
          selectedBudget := Some(budgetType);
          currentView := Itinerary;
        case Failure(_) =>
          selectedBudget := Some(budgetType);
          currentView := Itinerary;
      }
    }

    /** Start over: every field cleared, no remote call. */
    method HandleBackToDestination()
      requires Valid()
      modifies this
      ensures Valid() && Stage() == AtDestination
      ensures tripData == None && selectedBudget == None && savedTripId == None
      ensures saveRequests == old(saveRequests)
    {
      currentView := Destination;
      tripData := None;
      selectedBudget := None;
      savedTripId := None;
    }

    /** Back to tier selection: parameters kept, tier and trip id cleared, no remote call. */
    method HandleBackToBudget()
      requires Valid() && tripData.Some?
      modifies this
      ensures Valid() && Stage() == AtBudget(old(tripData).value)
      ensures tripData == old(tripData) && selectedBudget == None && savedTripId == None
      ensures saveRequests == old(saveRequests)
    {
      currentView := Budget;
      selectedBudget := None;
      savedTripId := None;
    }
  }
}
