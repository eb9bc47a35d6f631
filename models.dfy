/**
 * The data shapes of the trip planner's backend: activities, days, budget
 * plans, the three-tier travel plan and the user trip with its completion map.
 * Timestamps are integer milliseconds; `created_at` fields are clock values and
 * are not modelled.
 */
module Models {
  import opened Wrappers

  /** One scheduled item of a day. `kind` is the source's `type`. */
  datatype Activity = Activity(time: string, task: string, kind: string)

  /** The five categories the `type` field is documented to hold. */
  predicate IsDocumentedKind(kind: string) {
    kind in {"accommodation", "transport", "sightseeing", "dining", "activity"}
  }

  datatype DayItinerary = DayItinerary(day: int, title: string, activities: seq<Activity>)

  datatype BudgetPlan = BudgetPlan(
    totalBudget: string,
    duration: string,
    accommodation: string,
    transport: string,
    highlights: seq<string>,
    itinerary: seq<DayItinerary>)

  /** The three budget tiers. */
  datatype Tier = Backpacker | TravelEnthusiast | Luxury

  /** The key under which a tier's plan is handed to clients. */
  function TierKey(t: Tier): (k: string)
    ensures k in {"backpacker", "travelEnthusiast", "luxury"}
  {
    match t
    case Backpacker => "backpacker"
    case TravelEnthusiast => "travelEnthusiast"
    case Luxury => "luxury"
  }

  /** Reads a tier back from its client key; any other string is no tier. */
  function ParseTier(k: string): (r: Option<Tier>)
    ensures r.Some? <==> k in {"backpacker", "travelEnthusiast", "luxury"}
    ensures r.Some? ==> TierKey(r.value) == k
  {
    if k == "backpacker" then Some(Backpacker)
    else if k == "travelEnthusiast" then Some(TravelEnthusiast)
    else if k == "luxury" then Some(Luxury)
    else None
  }

  lemma TierKeyRoundTrip(t: Tier)
    ensures ParseTier(TierKey(t)) == Some(t)
  {
  }

  /** A destination's plans, one per tier. */
  datatype TravelPlan = TravelPlan(
    id: string,
    destinationId: string,
    destinationName: string,
    backpacker: BudgetPlan,
    travelEnthusiast: BudgetPlan,
    luxury: BudgetPlan)

  function PlanFor(p: TravelPlan, t: Tier): BudgetPlan {
    match t
    case Backpacker => p.backpacker
    case TravelEnthusiast => p.travelEnthusiast
    case Luxury => p.luxury
  }

  /** The `plans` object of the travel-plans response: exactly the three tier keys. */
  function PlansByKey(p: TravelPlan): (plans: map<string, BudgetPlan>)
    ensures plans.Keys == {"backpacker", "travelEnthusiast", "luxury"}
    ensures forall t: Tier :: TierKey(t) in plans && plans[TierKey(t)] == PlanFor(p, t)
  {
    map["backpacker" := p.backpacker,
        "travelEnthusiast" := p.travelEnthusiast,
        "luxury" := p.luxury]
  }

  /** The fields a client sends to create a trip. */
  datatype UserTripCreate = UserTripCreate(
    destination: string,
    startDate: int,
    endDate: int,
    travelers: int,
    selectedBudget: string,
    userEmail: Option<string>)

  /** A stored trip; `completedActivities` maps activity keys to done flags. */
  datatype UserTrip = UserTrip(
    id: string,
    destination: string,
    startDate: int,
    endDate: int,
    travelers: int,
    selectedBudget: string,
    completedActivities: map<string, bool>,
    userEmail: Option<string>,
    shareToken: Option<string>)

  /** A progress update: the complete key-to-flag map, not a delta. */
  datatype UserTripUpdate = UserTripUpdate(completedActivities: map<string, bool>)

  /**
   * The trip built from a creation request: its fields copied, a fresh
   * `id`, an empty completion map and no share token yet.
   */
  function FromCreate(c: UserTripCreate, id: string): (t: UserTrip)
    ensures t.id == id && t.completedActivities == map[] && t.shareToken == None
    ensures t.destination == c.destination && t.startDate == c.startDate && t.endDate == c.endDate
    ensures t.travelers == c.travelers && t.selectedBudget == c.selectedBudget && t.userEmail == c.userEmail
  {
    UserTrip(id, c.destination, c.startDate, c.endDate, c.travelers, c.selectedBudget,
             map[], c.userEmail, None)
  }
}
