/** The trip planner panel (tourist-app/src/components/TripPlanner.tsx): the
    trip name typed by the user, the guards of saving and clearing, and the
    Save button's enable condition, over the places provider. The browser's
    `alert` and `confirm` become an alert log and an input. */
module TripPlanner {
  import opened Wrappers
  import opened Text
  import opened PlacesContext

  const NoNameAlert := "Please enter a name for your trip."
  const NoPlacesAlert := "Please add at least one place to your trip."

  /** `currentTripPlaces.map(p => p.id)`. */
  function TripPlaceIds(places: seq<Place>): (r: seq<string>)
    ensures |r| == |places| && forall i :: 0 <= i < |places| ==> r[i] == places[i].id
  {
    seq(|places|, i requires 0 <= i < |places| => places[i].id)
  }

  /** What `handleSaveTrip` does: alert for a blank name first, then for an
      empty trip, else submit the untrimmed name with the trip's ids. */
  function SaveDecision(tripName: string, places: seq<Place>): (r: Result<NewTrip, string>)
    ensures AllWhitespace(tripName) ==> r == Err(NoNameAlert)
    ensures !AllWhitespace(tripName) && places == [] ==> r == Err(NoPlacesAlert)
    ensures r.Ok? <==> !AllWhitespace(tripName) && places != []
    ensures r.Ok? ==> r.value.name == tripName && r.value.placeIds == TripPlaceIds(places)
  {
    TrimEmpty(tripName);
    if Trim(tripName) == "" then Err(NoNameAlert)
    else if |places| == 0 then Err(NoPlacesAlert)
    else Ok(NewTrip(tripName, TripPlaceIds(places)))
  }

  /** The Save button is disabled while submitting, for a blank name, or for
      an empty trip. */
  predicate SaveEnabled(isSubmittingTrip: bool, tripName: string, places: seq<Place>): (r: bool)
    ensures r <==> !isSubmittingTrip && !AllWhitespace(tripName) && places != []
  {
    TrimEmpty(tripName);
    !(isSubmittingTrip || Trim(tripName) == "" || |places| == 0)
  }

  /** An enabled Save button always reaches `createTrip`: the handler's
      guards never fire for a click the button lets through, and when they
      would fire the button is disabled. */
  lemma EnabledSaveSubmits(isSubmittingTrip: bool, tripName: string, places: seq<Place>)
    ensures SaveEnabled(isSubmittingTrip, tripName, places) ==> SaveDecision(tripName, places).Ok?
    ensures SaveDecision(tripName, places).Err? ==> !SaveEnabled(isSubmittingTrip, tripName, places)
  {
    TrimEmpty(tripName);
  }

  /** The panel's state cells and the provider it works on. The success
      message's three-second timer is reduced to whether it is pending: it
      is set by the first effect and cancelled by that effect's clean-up. */
  class TripPlannerPanel {
    var tripName: string
    var showSuccessMessage: bool
    var successTimerPending: bool
    var alerts: seq<string>
    const places: PlacesProvider

    constructor (places: PlacesProvider)
      ensures tripName == "" && !showSuccessMessage && !successTimerPending && alerts == [] && this.places == places
    {
      tripName := "";
      showSuccessMessage := false;
      successTimerPending := false;
      alerts := [];
      this.places := places;
    }

    /** Typing into the name field stores the text as typed. */
    method TypeTripName(value: string)
      modifies this
      ensures tripName == value && alerts == old(alerts) && showSuccessMessage == old(showSuccessMessage)
      ensures successTimerPending == old(successTimerPending)
    {
      tripName := value;
    }

    /** `handleSaveTrip`, given how the POST would end: a failed guard alerts
        and leaves the provider alone; otherwise `createTrip` runs with the
        decision's trip. */
    method HandleSaveTrip(outcome: Result<Trip, Failure>) returns (submitted: Option<NewTrip>)
      modifies this, places
      ensures tripName == old(tripName) && showSuccessMessage == old(showSuccessMessage)
      ensures successTimerPending == old(successTimerPending)
      ensures SaveDecision(old(tripName), old(places.state.currentTripPlaces)).Err? ==>
                && submitted == None && places.state == old(places.state)
                && alerts == old(alerts) + [SaveDecision(old(tripName), old(places.state.currentTripPlaces)).error]
      ensures SaveDecision(old(tripName), old(places.state.currentTripPlaces)).Ok? ==>
                && submitted == Some(SaveDecision(old(tripName), old(places.state.currentTripPlaces)).value)
                && alerts == old(alerts)
                && (outcome.Ok? ==> places.state == old(places.state).(currentTripPlaces := [], isSubmittingTrip := false,
                                                                      submitTripError := None, submitTripSuccess := true))
                && (outcome.Err? ==> places.state == old(places.state).(isSubmittingTrip := false, submitTripSuccess := false,
                                                                       submitTripError := Some(ErrorText(outcome.error, "Failed to create trip"))))
    {
      TrimEmpty(tripName);
      if Trim(tripName) == "" {
        alerts := alerts + [NoNameAlert];
        return None;
      }
      if |places.state.currentTripPlaces| == 0 {
        alerts := alerts + [NoPlacesAlert];
        return None;
      }
      var placeIds := TripPlaceIds(places.state.currentTripPlaces);
      var trip := NewTrip(tripName, placeIds);
      assert SaveDecision(tripName, places.state.currentTripPlaces) == Ok(trip);
      var _ := places.CreateTrip(trip, outcome);
      submitted := Some(trip);
    }

    /** `handleClearTrip` with the user's answer to the confirmation: a
        confirmed clear empties the trip, clears the name and resets the
        submit status; otherwise nothing changes. */
    method HandleClearTrip(confirmed: bool)
      modifies this, places
      ensures alerts == old(alerts) && showSuccessMessage == old(showSuccessMessage)
      ensures successTimerPending == old(successTimerPending)
      ensures !confirmed ==> tripName == old(tripName) && places.state == old(places.state)
      ensures confirmed ==> tripName == ""
      ensures confirmed ==> places.state == old(places.state).(currentTripPlaces := [], isSubmittingTrip := false,
                                                              submitTripError := None, submitTripSuccess := false)
    {
      if confirmed {
        places.ClearCurrentTrip();
        tripName := "";
        places.ResetSubmitTripStatus();
      }
    }

    /** The first effect, run whenever `submitTripSuccess` changes: the
        clean-up of its previous run cancels a pending timer; then, on
        success, the message is shown, the name cleared and a new timer set. */
    method OnSubmitTripSuccess()
      modifies this
      ensures successTimerPending == places.state.submitTripSuccess
      ensures places.state.submitTripSuccess ==> showSuccessMessage && tripName == ""
      ensures !places.state.submitTripSuccess ==> showSuccessMessage == old(showSuccessMessage) && tripName == old(tripName)
      ensures alerts == old(alerts)
    {
      successTimerPending := false;
      if places.state.submitTripSuccess {
        showSuccessMessage := true;
        tripName := "";
        successTimerPending := true;
      }
    }

    /** The first effect as its comment at TripPlanner.tsx:29 intends: the
        hiding timer is set on success and survives a later reset of the
        status; a run without success changes nothing. */
    method OnSubmitTripSuccessKeepingTimer()
      modifies this
      ensures places.state.submitTripSuccess ==> showSuccessMessage && tripName == "" && successTimerPending
      ensures !places.state.submitTripSuccess ==>
                && showSuccessMessage == old(showSuccessMessage) && tripName == old(tripName)
                && successTimerPending == old(successTimerPending)
      ensures alerts == old(alerts)
    {
      if places.state.submitTripSuccess {
        showSuccessMessage := true;
        tripName := "";
        successTimerPending := true;
      }
    }

    /** The first effect's timer firing: a pending timer hides the message
        and resets the submit status; a cancelled one does nothing. */
    method OnSuccessTimer()
      modifies this, places
      ensures !successTimerPending
      ensures old(successTimerPending) ==>
                && !showSuccessMessage
                && places.state == old(places.state).(isSubmittingTrip := false, submitTripError := None,
                                                      submitTripSuccess := false)
      ensures !old(successTimerPending) ==> showSuccessMessage == old(showSuccessMessage) && places.state == old(places.state)
      ensures tripName == old(tripName) && alerts == old(alerts)
    {
      if successTimerPending {
        showSuccessMessage := false;
        successTimerPending := false;
        places.ResetSubmitTripStatus();
      }
    }

    /** The second effect, run on mount and whenever the trip's places
        change: the submit status is reset, clearing a success flag or an
        error left by an earlier submit. */
    method OnTripPlacesChange()
      modifies places
      ensures places.state == old(places.state).(isSubmittingTrip := false, submitTripError := None,
                                                 submitTripSuccess := false)
    {
      places.ResetSubmitTripStatus();
    }
  }

  /** A successful save, followed by the effects its commit runs in
      declaration order (the success effect, then the reset effect for the
      emptied trip, then the success effect again for the flag the reset
      cleared), leaves an empty trip and an empty name with the success
      message up. The reset has cancelled the hiding timer, so the timer
      firing afterwards leaves the message shown. */
  method SaveSucceeds(panel: TripPlannerPanel, trip: Trip)
    requires SaveEnabled(panel.places.state.isSubmittingTrip, panel.tripName, panel.places.state.currentTripPlaces)
    modifies panel, panel.places
    ensures panel.places.state.currentTripPlaces == [] && panel.tripName == "" && panel.showSuccessMessage
    ensures !panel.places.state.submitTripSuccess && panel.places.state.submitTripError == None
    ensures !panel.successTimerPending
    ensures panel.alerts == old(panel.alerts)
  {
    EnabledSaveSubmits(panel.places.state.isSubmittingTrip, panel.tripName, panel.places.state.currentTripPlaces);
    var submitted := panel.HandleSaveTrip(Ok(trip));
    panel.OnSubmitTripSuccess();
    panel.OnTripPlacesChange();
    panel.OnSubmitTripSuccess();
    panel.OnSuccessTimer();
  }

  /** The same commit with the timer kept across the reset: once it fires,
      the success message is hidden and the status is clear. */
  method SaveHidesMessage(panel: TripPlannerPanel, trip: Trip)
    requires SaveEnabled(panel.places.state.isSubmittingTrip, panel.tripName, panel.places.state.currentTripPlaces)
    modifies panel, panel.places
    ensures panel.places.state.currentTripPlaces == [] && panel.tripName == "" && !panel.showSuccessMessage
    ensures !panel.places.state.submitTripSuccess && panel.places.state.submitTripError == None
    ensures !panel.successTimerPending
    ensures panel.alerts == old(panel.alerts)
  {
    EnabledSaveSubmits(panel.places.state.isSubmittingTrip, panel.tripName, panel.places.state.currentTripPlaces);
    var submitted := panel.HandleSaveTrip(Ok(trip));
    panel.OnSubmitTripSuccessKeepingTimer();
    panel.OnTripPlacesChange();
    panel.OnSubmitTripSuccessKeepingTimer();
    panel.OnSuccessTimer();
  }

  /** Adding a new place while the panel is mounted changes the trip, so the
      reset effect runs and an error left by a failed save disappears. A
      place already in the trip leaves the state, and so the error, alone. */
  method AddingPlaceClearsError(panel: TripPlannerPanel, place: Place)
    modifies panel.places
    ensures !HasPlace(old(panel.places.state.currentTripPlaces), place.id) ==>
              && panel.places.state.currentTripPlaces == old(panel.places.state.currentTripPlaces) + [place]
              && panel.places.state.submitTripError == None && !panel.places.state.submitTripSuccess
    ensures HasPlace(old(panel.places.state.currentTripPlaces), place.id) ==> panel.places.state == old(panel.places.state)
  {
    var changed := !HasPlace(panel.places.state.currentTripPlaces, place.id);
    panel.places.AddPlaceToTrip(place);
    if changed {
      panel.OnTripPlacesChange();
    }
  }
}
