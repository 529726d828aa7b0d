/** The plan-level state of the travel planner (src/App.tsx): the plan name
    and the itinerary held by the top-level component, and the guards of its
    save, load, clear and rename handlers. Local storage, the clock and the
    browser's `prompt` are inputs of the handlers. */
module AppPlan {
  import opened Wrappers
  import opened Text
  import opened Notifications
  import opened RouteData

  /** `TravelPlan` as it is handed to storage. */
  datatype TravelPlan = TravelPlan(id: string, name: string, locations: seq<Location>,
                                   createdAt: string, updatedAt: string)

  /** The plan that `handleSavePlan` writes: the fixed id 'currentPlan', the
      current name and exactly the current itinerary, with the two clock
      readings taken one after the other as its creation and update times. */
  function PlanToSave(name: string, locations: seq<Location>, createdAt: string, updatedAt: string): (p: TravelPlan)
    ensures p.id == "currentPlan" && p.name == name && p.locations == locations
    ensures p.createdAt == createdAt && p.updatedAt == updatedAt
  {
    TravelPlan("currentPlan", name, locations, createdAt, updatedAt)
  }

  /** The name `handleRenamePlan` accepts from the prompt: present, not blank
      once trimmed, and then stored trimmed. A cancelled prompt (`null`) and
      the empty string are both refused. */
  function AcceptedName(promptResult: Option<string>): (r: Option<string>)
    ensures r.Some? <==> promptResult.Some? && !AllWhitespace(promptResult.value)
    ensures r.Some? ==> r.value == Trim(promptResult.value) && r.value != ""
    ensures r.Some? ==> !IsWhitespace(r.value[0]) && !IsWhitespace(r.value[|r.value| - 1])
  {
    if promptResult.None? then None
    else
      var newName := promptResult.value;
      TrimEmpty(newName);
      TrimIsSlice(newName);
      if newName != "" && Trim(newName) != "" then Some(Trim(newName)) else None
  }

  /** Renaming to a name that was itself accepted keeps it as it is. */
  lemma AcceptedNameStable(promptResult: Option<string>)
    requires AcceptedName(promptResult).Some?
    ensures AcceptedName(AcceptedName(promptResult)) == AcceptedName(promptResult)
  {
    TrimIdempotent(promptResult.value);
  }

  /** The component's state cells, and the notifications raised so far. */
  class PlannerApp {
    var currentPlanName: string
    var locations: seq<Location>
    var raised: seq<NoteRequest>

    /** The initial state: 'My Awesome Trip' and the first three sample locations. */
    constructor ()
      ensures currentPlanName == "My Awesome Trip"
      ensures locations == SampleLocations[..3]
      ensures raised == []
    {
      currentPlanName := "My Awesome Trip";
      locations := SampleLocations[..3];
      raised := [];
    }

    /** The mount effect: a stored plan replaces both cells, otherwise the
        default itinerary stays; either way the user is told. */
    method LoadInitialPlan(loaded: Option<TravelPlan>)
      modifies this
      ensures loaded.Some? ==> locations == loaded.value.locations && currentPlanName == loaded.value.name
      ensures loaded.Some? ==> raised == old(raised) + [Notify("Loaded plan \"" + loaded.value.name + "\" from storage.", Info)]
      ensures loaded.None? ==> locations == old(locations) && currentPlanName == old(currentPlanName)
      ensures loaded.None? ==> raised == old(raised) + [Notify("No saved plan found. Starting with a default itinerary.", Info)]
    {
      if loaded.Some? {
        locations := loaded.value.locations;
        currentPlanName := loaded.value.name;
        raised := raised + [Notify("Loaded plan \"" + loaded.value.name + "\" from storage.", Info)];
      } else {
        raised := raised + [Notify("No saved plan found. Starting with a default itinerary.", Info)];
      }
    }

    /** `handleLocationsChange`: the list handed up by the builder replaces the
        itinerary verbatim. */
    method HandleLocationsChange(updatedLocations: seq<Location>)
      modifies this
      ensures locations == updatedLocations
      ensures currentPlanName == old(currentPlanName) && raised == old(raised)
    {
      locations := updatedLocations;
    }

    /** Typing into the plan-name field stores the text as typed, untrimmed. */
    method HandlePlanNameInput(value: string)
      modifies this
      ensures currentPlanName == value
      ensures locations == old(locations) && raised == old(raised)
    {
      currentPlanName := value;
    }

    /** `handleSavePlan`. An empty itinerary is refused with a warning and
        nothing is written; otherwise the plan built by `PlanToSave` is
        written, and the outcome of the write decides the notification.
        Neither state cell changes. */
    method HandleSavePlan(createdAt: string, updatedAt: string, writeSucceeds: bool) returns (written: Option<TravelPlan>)
      modifies this
      ensures locations == old(locations) && currentPlanName == old(currentPlanName)
      ensures written.None? <==> old(locations) == []
      ensures old(locations) == [] ==> raised == old(raised) + [Notify("Cannot save an empty plan.", Warning)]
      ensures written.Some? ==> written.value == PlanToSave(old(currentPlanName), old(locations), createdAt, updatedAt)
      ensures written.Some? && writeSucceeds ==>
                raised == old(raised) + [Notify("Plan \"" + old(currentPlanName) + "\" saved successfully!", Success)]
      ensures written.Some? && !writeSucceeds ==> raised == old(raised) + [Notify("Failed to save plan.", Error)]
    {
      if |locations| == 0 {
        raised := raised + [Notify("Cannot save an empty plan.", Warning)];
        return None;
      }
      var planToSave := PlanToSave(currentPlanName, locations, createdAt, updatedAt);
      written := Some(planToSave);
      if writeSucceeds {
        raised := raised + [Notify("Plan \"" + currentPlanName + "\" saved successfully!", Success)];
      } else {
        raised := raised + [Notify("Failed to save plan.", Error)];
      }
    }

    /** `handleLoadPlan`: a plan found in storage replaces both the itinerary
        and the name; when none is found both stay as they were. */
    method HandleLoadPlan(loaded: Option<TravelPlan>)
      modifies this
      ensures loaded.Some? ==> locations == loaded.value.locations && currentPlanName == loaded.value.name
      ensures loaded.Some? ==> raised == old(raised) + [Notify("Plan \"" + loaded.value.name + "\" loaded!", Success)]
      ensures loaded.None? ==> locations == old(locations) && currentPlanName == old(currentPlanName)
      ensures loaded.None? ==> raised == old(raised) + [Notify("No plan found in storage to load.", Info)]
    {
      if loaded.Some? {
        locations := loaded.value.locations;
        currentPlanName := loaded.value.name;
        raised := raised + [Notify("Plan \"" + loaded.value.name + "\" loaded!", Success)];
      } else {
        raised := raised + [Notify("No plan found in storage to load.", Info)];
      }
    }

    /** `handleClearItinerary`: an empty itinerary only notifies; any other
        becomes empty. The name is kept. */
    method HandleClearItinerary()
      modifies this
      ensures locations == []
      ensures currentPlanName == old(currentPlanName)
      ensures raised == old(raised) + [Notify(if old(locations) == [] then "Itinerary is already empty." else "Itinerary cleared.", Info)]
    {
      if |locations| == 0 {
        raised := raised + [Notify("Itinerary is already empty.", Info)];
        return;
      }
      locations := [];
      raised := raised + [Notify("Itinerary cleared.", Info)];
    }

    /** `handleRenamePlan` with the prompt's answer: an accepted name is stored
        trimmed and announced; anything else changes nothing at all. */
    method HandleRenamePlan(promptResult: Option<string>)
      modifies this
      ensures locations == old(locations)
      ensures AcceptedName(promptResult).Some? ==>
                && currentPlanName == AcceptedName(promptResult).value
                && raised == old(raised) + [Notify("Plan will be saved as \"" + AcceptedName(promptResult).value + "\". Remember to save.", Info)]
      ensures AcceptedName(promptResult).None? ==> currentPlanName == old(currentPlanName) && raised == old(raised)
    {
      var accepted := AcceptedName(promptResult);
      if accepted.Some? {
        currentPlanName := accepted.value;
        raised := raised + [Notify("Plan will be saved as \"" + accepted.value + "\". Remember to save.", Info)];
      }
    }
  }

  /** The initial itinerary is Eiffel Tower, Louvre Museum, Notre-Dame. */
  lemma InitialItinerary()
    ensures SampleLocations[..3] == [EiffelTower, Louvre, NotreDame]
  {
  }

  /** Saving and then loading the written plan restores the itinerary and
      the name that were saved. */
  method SaveThenLoad(app: PlannerApp, createdAt: string, updatedAt: string)
    requires app.locations != []
    modifies app
    ensures app.locations == old(app.locations) && app.currentPlanName == old(app.currentPlanName)
  {
    var written := app.HandleSavePlan(createdAt, updatedAt, true);
    app.HandleLocationsChange([]);
    app.HandleLoadPlan(written);
  }
}
