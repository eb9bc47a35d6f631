/**
 * The itinerary view's progress tracking: the completion map keyed by
 * `"<day>-<activity>"`, its toggle, the statistics derived from it, the
 * per-trip local storage scope, and the load-time reconcile with the server.
 */
module ItineraryView {
  import opened Wrappers
  import opened Models
  import opened ActivityKeys
  import opened Progress

  // ---------------------------------------------------------------------------
  // Plan shape

  /** The number of activities over all days, summed left to right. */
  function TotalActivities(days: seq<DayItinerary>): (total: nat)
    ensures forall d :: 0 <= d < |days| ==> |days[d].activities| <= total
    ensures total == 0 <==> forall d :: 0 <= d < |days| ==> days[d].activities == []
  {
    if days == [] then 0
    else TotalActivities(days[..|days| - 1]) + |days[|days| - 1].activities|
  }

  /** Key `k` names an existing activity of `days`. */
  ghost predicate Addresses(days: seq<DayItinerary>, k: string) {
    exists d: nat, a: nat :: d < |days| && a < |days[d].activities| && k == Key(d, a)
  }

  /** The keys of activities 0 .. n-1 of day `d`. */
  function DayKeys(d: nat, n: nat): set<string> {
    if n == 0 then {} else DayKeys(d, n - 1) + {Key(d, n - 1)}
  }

  /** The keys of every activity of the plan. */
  function PlanKeys(days: seq<DayItinerary>): set<string> {
    if days == [] then {}
    else PlanKeys(days[..|days| - 1]) + DayKeys(|days| - 1, |days[|days| - 1].activities|)
  }

  lemma {:induction false} DayKeysMembership(d: nat, n: nat, k: string)
    ensures k in DayKeys(d, n) <==> exists a: nat :: a < n && k == Key(d, a)
  {
    if n > 0 {
      DayKeysMembership(d, n - 1, k);
    }
  }

  lemma {:induction false} DayKeysCount(d: nat, n: nat)
    ensures |DayKeys(d, n)| == n
  {
    if n > 0 {
      DayKeysCount(d, n - 1);
      if Key(d, n - 1) in DayKeys(d, n - 1) {
        DayKeysMembership(d, n - 1, Key(d, n - 1));
        var a: nat :| a < n - 1 && Key(d, n - 1) == Key(d, a);
        KeyInjective(d, n - 1, d, a);
      }
    }
  }

  /** The plan's keys are exactly the keys that address one of its activities. */
  lemma {:induction false} PlanKeysMembership(days: seq<DayItinerary>, k: string)
    ensures k in PlanKeys(days) <==> Addresses(days, k)
  {
    if days != [] {
      var init, last := days[..|days| - 1], |days| - 1;
      PlanKeysMembership(init, k);
      DayKeysMembership(last, |days[last].activities|, k);
      if Addresses(days, k) {
        var d: nat, a: nat :| d < |days| && a < |days[d].activities| && k == Key(d, a);
        if d < last {
          assert init[d] == days[d];
          assert Addresses(init, k);
        }
      }
      if Addresses(init, k) {
        var d: nat, a: nat :| d < |init| && a < |init[d].activities| && k == Key(d, a);
        assert days[d] == init[d];
      }
    }
  }

  /** Every activity has its own key, so the plan has as many keys as activities. */
  lemma {:induction false} PlanKeysCount(days: seq<DayItinerary>)
    ensures |PlanKeys(days)| == TotalActivities(days)
  {
    if days != [] {
      var init, last := days[..|days| - 1], |days| - 1;
      var n := |days[last].activities|;
      PlanKeysCount(init);
      DayKeysCount(last, n);
      forall k | k in PlanKeys(init) && k in DayKeys(last, n)
        ensures false
      {
        PlanKeysMembership(init, k);
        DayKeysMembership(last, n, k);
        var d: nat, a: nat :| d < |init| && a < |init[d].activities| && k == Key(d, a);
        var b: nat :| b < n && k == Key(last, b);
        KeyInjective(d, a, last, b);
      }
      assert PlanKeys(init) * DayKeys(last, n) == {};
    }
  }

  // ---------------------------------------------------------------------------
  // Statistics

  datatype Stats = Stats(total: nat, completed: nat, percentage: nat)

  /**
   * The view's progress figures: nothing loaded gives 0/0/0; otherwise the
   * plan's activity count, the number of true flags in the whole map (stale
   * keys included), and the rounded percentage, 0 for an empty plan.
   */
  function CompletionStats(travelData: Option<BudgetPlan>, checked: CompletionMap): (s: Stats)
    ensures travelData.None? ==> s == Stats(0, 0, 0)
    ensures travelData.Some? ==>
      s.total == |PlanKeys(travelData.value.itinerary)| && s.completed == |TrueKeys(checked)|
    ensures s.total == 0 ==> s.percentage == 0
    ensures s.total > 0 ==>
      2 * s.percentage * s.total <= 200 * s.completed + s.total < 2 * (s.percentage + 1) * s.total
  {
    match travelData
    case None => Stats(0, 0, 0)
    case Some(plan) =>
      var total := TotalActivities(plan.itinerary);
      var completed := CountTrue(checked);
      PlanKeysCount(plan.itinerary);
      Stats(total, completed, if total > 0 then RoundHalfUp(100 * completed, total) else 0)
  }

  /** When every checked key addresses an activity of the plan, the percentage is at most 100. */
  lemma PercentageBounded(plan: BudgetPlan, checked: CompletionMap)
    requires forall k :: IsChecked(checked, k) ==> Addresses(plan.itinerary, k)
    ensures CompletionStats(Some(plan), checked).completed <= CompletionStats(Some(plan), checked).total
    ensures CompletionStats(Some(plan), checked).percentage <= 100
  {
    var s := CompletionStats(Some(plan), checked);
    forall k | k in TrueKeys(checked) ensures k in PlanKeys(plan.itinerary) {
      PlanKeysMembership(plan.itinerary, k);
    }
    SubsetCardinality(TrueKeys(checked), PlanKeys(plan.itinerary));
    if s.total > 0 {
      RoundedShareAtMostWhole(s.percentage, s.completed, s.total, 100);
    }
  }

  /** A plan of one day with one activity, and a map holding that key plus a stale one. */
  lemma StaleKeysExceedHundred()
    ensures var plan := BudgetPlan("", "", "", "", [], [DayItinerary(1, "", [Activity("09:00", "", "activity")])]);
            var checked := map[Key(0, 0) := true, Key(5, 5) := true];
            CompletionStats(Some(plan), checked) == Stats(1, 2, 200)
  {
    var checked := map[Key(0, 0) := true, Key(5, 5) := true];
    assert Key(0, 0) == "0-0" && Key(5, 5) == "5-5";
    assert TrueKeys(checked) == {"0-0", "5-5"};
  }

  /** Two days of three and two activities with the first two of day 0 checked: 5, 2, 40%. */
  lemma TwoDayPlanExample()
    ensures var a := Activity("09:00", "", "sightseeing");
            var plan := BudgetPlan("", "", "", "", [], [DayItinerary(1, "", [a, a, a]), DayItinerary(2, "", [a, a])]);
            CompletionStats(Some(plan), map[Key(0, 0) := true, Key(0, 1) := true]) == Stats(5, 2, 40)
  {
    var a := Activity("09:00", "", "sightseeing");
    var days := [DayItinerary(1, "", [a, a, a]), DayItinerary(2, "", [a, a])];
    assert days[..1] == [DayItinerary(1, "", [a, a, a])] && days[..1][..0] == [];
    assert TotalActivities(days[..1]) == 3;
    assert TotalActivities(days) == 5;
    var checked := map[Key(0, 0) := true, Key(0, 1) := true];
    assert Key(0, 0) == "0-0" && Key(0, 1) == "0-1";
    assert TrueKeys(checked) == {"0-0", "0-1"};
    assert RoundHalfUp(200, 5) == 40;
  }

  // ---------------------------------------------------------------------------
  // Toggle

  /** The map after `toggleCheck` flips key `k`; a missing key counts as unchecked. */
  function Toggled(m: CompletionMap, k: string): (r: CompletionMap)
    ensures r.Keys == m.Keys + {k}
    ensures IsChecked(r, k) == !IsChecked(m, k)
    ensures forall j :: j in m && j != k ==> r[j] == m[j]
  {
    m[k := !IsChecked(m, k)]
  }

  /** A toggle moves the true count by exactly one, in the direction of the flip. */
  lemma ToggleCount(m: CompletionMap, k: string)
    ensures CountTrue(Toggled(m, k)) == if IsChecked(m, k) then CountTrue(m) - 1 else CountTrue(m) + 1
  {
    var r := Toggled(m, k);
    var rest := TrueKeys(m) - {k};
    assert TrueKeys(r) - {k} == rest by {
      forall j ensures j in TrueKeys(r) - {k} <==> j in rest {
        if j != k && j in m {
          assert r[j] == m[j];
        }
      }
    }
    if IsChecked(m, k) {
      assert TrueKeys(m) == rest + {k};
      assert TrueKeys(r) == rest;
    } else {
      assert TrueKeys(m) == rest;
      assert TrueKeys(r) == rest + {k};
    }
  }

  /**
   * Toggling a key twice restores every checked value and the completed
   * count, but a key that was absent is left behind with the value false.
   */
  lemma ToggleTwice(m: CompletionMap, k: string)
    ensures forall j :: IsChecked(Toggled(Toggled(m, k), k), j) == IsChecked(m, j)
    ensures CountTrue(Toggled(Toggled(m, k), k)) == CountTrue(m)
    ensures k !in m ==> k in Toggled(Toggled(m, k), k) && Toggled(Toggled(m, k), k)[k] == false
    ensures k !in m ==> Toggled(Toggled(m, k), k) != m
  {
    ToggleCount(m, k);
    ToggleCount(Toggled(m, k), k);
  }

  /** Toggling twice leaves the view's statistics as they were. */
  lemma ToggleTwiceKeepsStats(travelData: Option<BudgetPlan>, m: CompletionMap, k: string)
    ensures CompletionStats(travelData, Toggled(Toggled(m, k), k)) == CompletionStats(travelData, m)
  {
    ToggleTwice(m, k);
  }

  /** Toggling activities 0 and 1 of day 0 on a fresh four-activity plan gives 50%. */
  lemma TwoTogglesExample()
    ensures var a := Activity("09:00", "", "dining");
            var plan := BudgetPlan("", "", "", "", [], [DayItinerary(1, "", [a, a, a, a])]);
            CompletionStats(Some(plan), Toggled(Toggled(map[], Key(0, 0)), Key(0, 1))).percentage == 50
  {
    var a := Activity("09:00", "", "dining");
    var days := [DayItinerary(1, "", [a, a, a, a])];
    assert days[..0] == [];
    assert TotalActivities(days) == 4;
    assert Key(0, 0) == "0-0" && Key(0, 1) == "0-1";
    var m := Toggled(Toggled(map[], "0-0"), "0-1");
    assert m == map["0-0" := true, "0-1" := true];
    assert TrueKeys(m) == {"0-0", "0-1"};
    assert RoundHalfUp(200, 4) == 50;
  }

  // ---------------------------------------------------------------------------
  // Local storage scope

  /** A trip id that JavaScript treats as present: set and not the empty string. */
  predicate HasTripId(id: Option<string>)
    ensures id.None? ==> !HasTripId(id)
    ensures id == Some("") ==> !HasTripId(id)
    ensures id.Some? && id.value != "" ==> HasTripId(id)
  {
    id.Some? && id.value != ""
  }

  const ScopePrefix: string := "trip-progress-"

  /** The local storage key of a view: `trip-progress-<id>`, or `trip-progress-local` without an id. */
  function ScopeKey(id: Option<string>): (k: string)
    ensures |k| > |ScopePrefix| && k[..|ScopePrefix|] == ScopePrefix
    ensures k[|ScopePrefix|..] == if HasTripId(id) then id.value else "local"
  {
    ScopePrefix + (if HasTripId(id) then id.value else "local")
  }

  /** Distinct present trip ids get distinct scopes. */
  lemma ScopeKeyInjective(a: Option<string>, b: Option<string>)
    requires HasTripId(a) && HasTripId(b)
    ensures ScopeKey(a) == ScopeKey(b) <==> a == b
  {
  }

  /** A trip whose id is the string "local" shares the scope of unsaved trips. */
  lemma LocalIdSharesScope()
    ensures ScopeKey(Some("local")) == ScopeKey(None)
  {
  }

  /** What the local store yields for a scope: the stored map, or the initial `{}`. */
  function ReadStore(storage: map<string, CompletionMap>, scope: string): (m: CompletionMap)
    ensures scope in storage ==> m == storage[scope]
    ensures scope !in storage ==> m == map[]
  {
    if scope in storage then storage[scope] else map[]
  }

  /** A whole-map overwrite of one scope. */
  function WriteStore(storage: map<string, CompletionMap>, scope: string, m: CompletionMap)
    : (r: map<string, CompletionMap>)
    ensures ReadStore(r, scope) == m
    ensures forall other :: other != scope ==> ReadStore(r, other) == ReadStore(storage, other)
  {
    storage[scope := m]
  }

  // ---------------------------------------------------------------------------
  // The view

  /**
   * The state of one mounted itinerary view. `storage` is the browser's
   * local storage, written through on every change of `checkedItems`;
   * `sentWrites` lists, in order, the maps sent to the server as progress
   * updates.
   */
  class ItineraryView {
    const destination: string
    const selectedBudget: Option<Tier>
    const savedTripId: Option<string>
    var travelData: Option<BudgetPlan>
    var loading: bool
    var checkedItems: CompletionMap
    var savingProgress: bool
    var storage: map<string, CompletionMap>
    var sentWrites: seq<CompletionMap>

    function Scope(): string {
      ScopeKey(savedTripId)
    }

    /** Local storage always holds what the view shows, and only a saved trip has a save in flight. */
    ghost predicate Valid()
      reads this
    {
      && checkedItems == ReadStore(storage, Scope())
      && (savingProgress ==> HasTripId(savedTripId))
    }

    /** Mounting the view: nothing loaded yet, progress read from the trip's scope. */
    constructor (destination: string, selectedBudget: Option<Tier>, savedTripId: Option<string>,
                 storage: map<string, CompletionMap>)
      ensures Valid()
      ensures this.destination == destination && this.selectedBudget == selectedBudget
      ensures this.savedTripId == savedTripId && this.storage == storage
      ensures travelData == None && loading && !savingProgress && sentWrites == []
      ensures checkedItems == ReadStore(storage, ScopeKey(savedTripId))
    {
      this.destination := destination;
      this.selectedBudget := selectedBudget;
      this.savedTripId := savedTripId;
      this.storage := storage;
      travelData := None;
      loading := true;
      checkedItems := ReadStore(storage, ScopeKey(savedTripId));
      savingProgress := false;
      sentWrites := [];
    }

    /**
     * The first half of `toggleCheck`, up to its await: flip one key, write
     * the whole map locally, and send it to the server only if the trip has
     * an id and no save is already in flight.
     */
    method ToggleCheck(dayIndex: nat, activityIndex: nat) returns (sent: bool)
      requires Valid()
      modifies this
      ensures Valid()
      ensures checkedItems == Toggled(old(checkedItems), Key(dayIndex, activityIndex))
      ensures storage == old(storage)[Scope() := checkedItems]
      ensures sent <==> HasTripId(savedTripId) && !old(savingProgress)
      ensures sentWrites == if sent then old(sentWrites) + [checkedItems] else old(sentWrites)
      ensures savingProgress == (old(savingProgress) || sent)
      ensures travelData == old(travelData) && loading == old(loading)
    {
      var key := Key(dayIndex, activityIndex);
      var updated := Toggled(checkedItems, key);
      checkedItems := updated;
      storage := WriteStore(storage, Scope(), updated);
      sent := HasTripId(savedTripId) && !savingProgress;
      if sent {
        savingProgress := true;
        sentWrites := sentWrites + [updated];
      }
    }

    /**
     * The rest of `toggleCheck`, once the remote write settles: the flag is
     * cleared whatever the outcome (the progress update call never throws).
     */
    method FinishSave()
      requires Valid()
      modifies this`savingProgress
      ensures Valid() && !savingProgress
    {
      savingProgress := false;
    }

    /**
     * The mount-time load. `plans` is the outcome of fetching the
     * destination's plans, `progress` that of fetching the trip's progress
     * (its value is `completed_activities`, possibly absent). The plan fetch
     * happens only with a destination and a tier; the progress fetch only
     * after a loaded plan and with a trip id, and its success replaces the
     * local map wholesale.
     */
    method LoadTravelData(plans: Result<map<string, BudgetPlan>>, progress: Result<Option<CompletionMap>>)
      returns (planFetched: bool, progressFetched: bool)
      requires Valid()
      modifies this
      ensures Valid()
      ensures planFetched <==> destination != "" && selectedBudget.Some?
      ensures progressFetched <==> planFetched && plans.Success? && HasTripId(savedTripId)
      ensures loading == (old(loading) && !planFetched)
      ensures travelData ==
        if planFetched && plans.Success? then
          (if TierKey(selectedBudget.value) in plans.value
           then Some(plans.value[TierKey(selectedBudget.value)]) else None)
        else old(travelData)
      ensures checkedItems ==
        if progressFetched && progress.Success? then progress.value.GetOr(map[]) else old(checkedItems)
      ensures storage ==
        if progressFetched && progress.Success? then old(storage)[Scope() := checkedItems] else old(storage)
      ensures savingProgress == old(savingProgress) && sentWrites == old(sentWrites)
    {
      planFetched := destination != "" && selectedBudget.Some?;
      progressFetched := false;
      if planFetched {
        loading := true;
        match plans {
          case Success(byKey) =>
            var key := TierKey(selectedBudget.value);
            travelData := if key in byKey then Some(byKey[key]) else None;
            if HasTripId(savedTripId) {
              progressFetched := true;
              match progress {
                case Success(completed) =>
                  var remote := completed.GetOr(map[]);
                  checkedItems := remote;
                  storage := WriteStore(storage, Scope(), remote);
                case Failure(_) =>
              }
            }
          case Failure(_) =>
        }
        loading := false;
      }
    }
  }

  /**
   * A toggle made while a save is in flight: both flips reach local
   * storage, only the first map is ever sent.
   */
  method InFlightToggleScenario() returns (sent: seq<CompletionMap>, local: CompletionMap)
    ensures sent == [map[Key(0, 0) := true]]
    ensures local == map[Key(0, 0) := true, Key(0, 1) := true]
    ensures local !in sent
  {
    var view := new ItineraryView("Paris", Some(Backpacker), Some("trip-1"), map[]);
    var first := view.ToggleCheck(0, 0);
    var second := view.ToggleCheck(0, 1);
    view.FinishSave();
    KeyInjective(0, 0, 0, 1);
    sent, local := view.sentWrites, view.storage[view.Scope()];
    assert map[Key(0, 0) := true] != local by {
      assert Key(0, 1) in local;
    }
  }

  /** Remote progress replaces the local map instead of merging with it. */
  method RemoteReplacesLocalScenario() returns (shown: CompletionMap)
    ensures shown == map[Key(1, 0) := true]
  {
    var local := map[ScopeKey(Some("trip-1")) := map[Key(0, 0) := true]];
    var view := new ItineraryView("Paris", Some(Backpacker), Some("trip-1"), local);
    var plan := BudgetPlan("", "", "", "", [], []);
    var planFetched, progressFetched := view.LoadTravelData(
      Success(map["backpacker" := plan]), Success(Some(map[Key(1, 0) := true])));
    shown := view.checkedItems;
  }
}
