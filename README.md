# Travel planner and tourist guide: a verified model

This project models, in Dafny, the logic of a travel application built from three parts:

- **The itinerary planner** (`src/`). It has:
  - a registry of five Paris locations and a precomputed route table;
  - a mock routing service that picks a route by preferred transit mode;
  - a drag-and-drop itinerary builder;
  - plan save/load/rename handlers;
  - a toast notification provider;
  - deterministic mock weather and place details;
  - the Thai-language discovery pages and profile handlers (interests, favourites, itinerary, reviews).
- **The tourist app** (`tourist-app/src/`). It has:
  - a favourites store kept in local storage;
  - the place details page;
  - a places/trip context;
  - the trip planner panel;
  - the search page;
  - the HTTP error classifier;
  - the authentication context, its route guard, and the login and registration forms.
- **The wanderlust guide** (`wanderlust_guide/app/`). It has amenity filters, activity search, and map queries: a bounding box, quadrant grouping, and lookup by name.

The form of each part follows the source:

- Constant tables and `filter`/`find` expressions are datatypes and functions with contracts.
- Components and providers whose state cells are updated by handlers are classes. Their fields are those cells; their methods are the handlers, with `modifies` clauses. Each method's `ensures` states its whole new state.
- The in-place `splice` of `reorder` works on a fresh array.
- The Python loops are methods with loop invariants. Each is proved equal to a filter specification, and the guide's properties are lemmas about that specification.

Anything outside the program is an input to the operation that uses it:

- Firestore and local-storage writes: a success flag, or the loaded value.
- HTTP calls: a `Result` saying how the call ended.
- `prompt`/`confirm`: the user's answer.
- Clocks and random notification ids: a timestamp or a fresh id.

Files, one module each:

- `wrappers.dfy`: `Option` and `Result`.
- `sequences.dfy`: order-preserving `Filter`, the sublist relation, toggling.
- `text.dfy`: JavaScript whitespace and `trim`, ASCII lower-casing, `includes`, `join`.
- `route_data.dfy` / `route_service.dfy`: `src/data/mockData.ts` and `src/services/routeService.ts`.
- `itinerary_builder.dfy`: `src/components/ItineraryBuilder.tsx`.
- `app_plan.dfy`: `src/App.tsx`.
- `notifications.dfy`: `src/hooks/useNotifier.tsx`.
- `mock_apis.dfy`: `src/services/mockAPIs.ts`.
- `mock_places.dfy` / `home_page.dfy`: `src/data/mockplaces.js`, `src/pages/HomePage.tsx`, `src/pages/HomePage.js`.
- `profile_app.dfy`, `interests_form.dfy`, `review_modal.dfy`: `src/app.js`, `src/components/InterestsForm.js`, `src/components/AddReviewModal.js`.
- `favorites_manager.dfy`, `place_details.dfy`, `places_context.dfy`, `trip_planner.dfy`, `search_page.dfy`, `api.dfy`, `auth_context.dfy`, `protected_route.dfy`, `login_page.dfy`, `register_page.dfy`: the files of the same names under `tourist-app/src/`.
- `wanderlust_places.dfy`, `wanderlust_filters.dfy`, `wanderlust_search.dfy`, `wanderlust_map.dfy`: the guide's place record, `filters.py`, `search.py`, `map_utils.py`.

Where the documented behaviour and the code disagree, the model follows the code:

- An out-of-range drag is documented as a no-op, but the code's `splice` grows the list by an `undefined` entry. `JsReorder` models the splice for all indices, and `JsReorderLength` and `JsReorderPastEndInsertsUndefined` state the growth.
- The documented example expects a DRIVING route from the Eiffel Tower to the Louvre. The route table as written has no such entry; see Findings.

## Model

| member | source | states |
|---|---|---|
| RouteData.FindLocation | src/data/mockData.ts:129-131 | `find` by id: no result exactly when no registry entry has the id; otherwise an entry with that id |
| RouteData.FindLocationAt | src/data/mockData.ts:129-131 | the lookup returns the entry at `k` when it is the first entry with that id |
| RouteData.SampleIds | src/data/mockData.ts:35-66 | the registry has five entries, with ids loc1..loc5 in order |
| RouteData.SampleIdsDistinct | src/data/mockData.ts:35-66 | the five ids are pairwise distinct |
| RouteData.SampleLocationIds | src/data/mockData.ts:35-66 | an id belongs to some registry entry exactly when it is one of loc1..loc5 |
| RouteData.LookupOwnId | src/data/mockData.ts:129-131 | each registry entry is what its own id looks up |
| RouteData.GetLocationById | src/data/mockData.ts:129-131 | a location is found exactly for the ids loc1..loc5, and what is found is a registry entry carrying the requested id |
| RouteData.SampleLookups | src/data/mockData.ts:35-66 | loc1..loc5 resolve to the Eiffel Tower, Louvre Museum, Notre-Dame, Sacré-Cœur and Gare du Nord |
| RouteData.UnknownIdNotFound | src/data/mockData.ts:129-131 | any other id gives no location |
| RouteData.ObjectFromEntries | src/data/mockData.ts:70-126 | an object literal has a property for exactly the keys among its entries |
| RouteData.ObjectFromEntriesLastWins | src/data/mockData.ts:70-126 | a repeated key takes the value of its last entry |
| RouteData.ObjectFromEntriesSnoc | src/data/mockData.ts:70-126 | a later entry overrides its key and leaves the other keys alone |
| RouteData.EffectiveMockRoutes | src/data/mockData.ts:70-126 | because 'loc1' is repeated, the effective table is exactly loc1→{loc5} and loc2→{loc3}, with no loc1→loc2 entry |
| RouteData.RoutesOk | src/data/mockData.ts:71-123 | each of the four routes has at least one segment, a total duration equal to the sum of its segment durations (25, 15, 15, 40=15+20+5), and endpoints that are the registry entries named by its table keys |
| RouteData.EffectiveTableWellFormed | src/data/mockData.ts:70-126 | in the effective table every candidate list is non-empty and every candidate keeps the route invariants |
| RouteData.IntendedTableWellFormed | src/data/mockData.ts:70-126 | the merged table keeps the same invariants |
| RouteService.FindPreferred | src/services/routeService.ts:63-67 | `find` with the preference test: no result exactly when no candidate matches; otherwise the first matching candidate |
| RouteService.CalculateMockRoute | src/services/routeService.ts:37-92 | an error exactly for an unknown id; a route exactly when both ids are valid and the candidate list is non-empty, and then it is one of the candidates |
| RouteService.InvalidIdsGiveError | src/services/routeService.ts:38-44 | an unknown origin or destination gives only 'Invalid origin or destination ID.' |
| RouteService.NoOriginEntryGivesMessage | src/services/routeService.ts:46-50 | an origin without a table entry gives only "No routes found from <origin>." |
| RouteService.NoDestinationEntryGivesMessage | src/services/routeService.ts:52-58 | a missing or empty destination list gives only "No direct routes found from <origin> to <destination>." |
| RouteService.NoPreferenceTakesFirst | src/services/routeService.ts:71-74 | with no preferred mode, the response is the first candidate with no message |
| RouteService.PreferenceTakesFirstMatch | src/services/routeService.ts:63-86 | with a preference, the first matching candidate in list order is returned; the degraded message is attached exactly when it has no segment of the preferred mode |
| RouteService.NoMatchFallsBack | src/services/routeService.ts:72-83 | when no candidate matches, the first candidate comes back with "Could not find a <mode> route. Showing available route." |
| RouteService.NoRoutesAvailableUnreachable | src/services/routeService.ts:85-92 | whenever no route is returned, one of the three earlier exits applied, so the final "No routes available" branch is dead |
| RouteService.MixedRouteHasNoMixedSegment | src/services/routeService.ts:64-67 | the three-segment route matches MIXED by its segment count although no segment is MIXED |
| RouteService.MixedRequestStillDegraded | src/services/routeService.ts:63-83 | a MIXED request loc1→loc5 finds that route and still carries the degraded MIXED message |
| RouteService.UnknownOriginRejected | src/services/routeService.ts:38-44 | the id 'locX' is rejected with the validation error |
| RouteService.NoEntryIsMessageNotError | src/services/routeService.ts:52-58 | Eiffel Tower→Notre-Dame has no entry: a message, not an error |
| RouteService.EffectiveTableLosesEiffelToLouvre | src/data/mockData.ts:70-126 | as written, a DRIVING request loc1→loc2 finds no route |
| RouteService.IntendedTableFindsEiffelToLouvre | src/services/routeService.ts:63-86 | with the 'loc1' entries merged, the same request returns the 15-minute DRIVING route with no message |
| RouteService.IntendedTableDefaultsToWalk | src/services/routeService.ts:71-74 | with the merged table and no preference, loc1→loc2 returns the first route, the walk |
| ItineraryBuilder.ClampIndex | src/components/ItineraryBuilder.tsx:18-19 | the index `splice` resolves: inside the list it is kept; beyond the end it becomes the length |
| ItineraryBuilder.Lift | src/components/ItineraryBuilder.tsx:17 | the copied list with every entry defined |
| ItineraryBuilder.JsReorder | src/components/ItineraryBuilder.tsx:16-21 | for any indices, the result holds the same elements as the copied list when the first `splice` removes one; when it removes nothing, those elements plus one `undefined` |
| ItineraryBuilder.Reordered | src/components/ItineraryBuilder.tsx:16-21 | the moved element lands at `endIndex`; the elements before and after the moved range stay; the range between shifts by one |
| ItineraryBuilder.Reorder | src/components/ItineraryBuilder.tsx:16-21 | on a fresh array (the `Array.from` copy), the result is `Reordered` of the input; the caller's array is untouched |
| ItineraryBuilder.ReorderPreservesElements | src/components/ItineraryBuilder.tsx:16-21 | reordering keeps the length and the multiset of elements |
| ItineraryBuilder.ReorderKeepsRelativeOrder | src/components/ItineraryBuilder.tsx:18-19 | removing the moved element from the result gives the input without it: all other elements keep their relative order |
| ItineraryBuilder.ReorderInverse | src/components/ItineraryBuilder.tsx:16-21 | dragging back from `endIndex` to `startIndex` restores the list |
| ItineraryBuilder.JsReorderValid | src/components/ItineraryBuilder.tsx:16-21 | for in-range indices, the two `splice` calls compute exactly `Reordered` |
| ItineraryBuilder.JsReorderLength | src/components/ItineraryBuilder.tsx:18-19 | for any indices, the length grows by one exactly when the start index is past the end |
| ItineraryBuilder.JsReorderPastEndInsertsUndefined | src/components/ItineraryBuilder.tsx:18-19 | a start index past the end inserts `undefined` |
| ItineraryBuilder.ReorderExample | src/components/ItineraryBuilder.tsx:16-21 | moving A of [A,B,C] to the end gives [B,C,A] |
| ItineraryBuilder.OnDragEnd | src/components/ItineraryBuilder.tsx:32-46 | a drop without a destination changes nothing and notifies nothing; otherwise the list handed up is exactly `Reordered` of the drop (same entries, the moved one at its destination, the others in their old relative order) with the 2-second 'Itinerary order updated!' success toast |
| ItineraryBuilder.Ids | src/components/ItineraryBuilder.tsx:50 | the ids of the list, in order |
| ItineraryBuilder.FirstUnused | src/components/ItineraryBuilder.tsx:51 | no result exactly when every pool id is present; otherwise a pool entry whose id is absent, the first such |
| ItineraryBuilder.HandleAddDestination | src/components/ItineraryBuilder.tsx:49-60 | when some sample id is unused, the first such location in pool order (every earlier pool id already taken) is appended after the existing entries and its name announced; otherwise the list is unchanged and the WARNING is raised |
| ItineraryBuilder.AddDestinationKeepsIdsDistinct | src/components/ItineraryBuilder.tsx:49-56 | appending the first unused location keeps the ids distinct |
| ItineraryBuilder.AddDestinationFromInitialItinerary | src/components/ItineraryBuilder.tsx:49-56 | from the initial three locations, the next add appends Sacré-Cœur |
| ItineraryBuilder.HandleTripAlert | src/components/ItineraryBuilder.tsx:63-69 | a 5-second INFO reminder naming the first location, or a WARNING for an empty list |
| AppPlan.PlanToSave | src/App.tsx:42-48 | the saved plan has id 'currentPlan', the current name and list, and the two clock readings as creation and update time (they may differ) |
| AppPlan.AcceptedName | src/App.tsx:81-83 | a prompt answer is accepted exactly when it is present and not blank; the stored name is its trim, non-empty, with no whitespace at either end |
| AppPlan.AcceptedNameStable | src/App.tsx:82-83 | an accepted name is accepted again unchanged |
| AppPlan.PlannerApp.constructor | src/App.tsx:14-15 | the initial plan is 'My Awesome Trip' with the first three sample locations |
| AppPlan.PlannerApp.LoadInitialPlan | src/App.tsx:19-31 | a stored plan replaces the list and the name with the "Loaded plan" toast; otherwise the default stays, with the "No saved plan found" toast |
| AppPlan.PlannerApp.HandleLocationsChange | src/App.tsx:33-35 | the list handed up replaces the itinerary; nothing else changes |
| AppPlan.PlannerApp.HandlePlanNameInput | src/App.tsx:97 | the typed text is stored untrimmed |
| AppPlan.PlannerApp.HandleSavePlan | src/App.tsx:37-55 | an empty list writes nothing and warns; otherwise it writes `PlanToSave`, then raises the success or failure toast according to the write |
| AppPlan.PlannerApp.HandleLoadPlan | src/App.tsx:57-66 | a found plan replaces both cells with the "loaded!" success toast; otherwise only the INFO toast |
| AppPlan.PlannerApp.HandleClearItinerary | src/App.tsx:68-78 | the list ends empty; the toast says 'Itinerary is already empty.' or 'Itinerary cleared.' |
| AppPlan.PlannerApp.HandleRenamePlan | src/App.tsx:80-86 | an accepted answer stores its trim and announces it; a cancelled or blank answer changes nothing |
| AppPlan.InitialItinerary | src/App.tsx:15 | the first three sample locations are the Eiffel Tower, the Louvre and Notre-Dame |
| AppPlan.SaveThenLoad | src/App.tsx:37-66 | loading the plan just saved restores the same list and name |
| Notifications.StoredDuration | src/hooks/useNotifier.tsx:44-53 | `duration \|\| defaultDuration`: a truthy duration is kept; absent or 0 takes the default |
| Notifications.RemoveById | src/hooks/useNotifier.tsx:55-59 | the toasts without that id, an order-preserving sublist |
| Notifications.RemoveAbsentId | src/hooks/useNotifier.tsx:55-59 | removing an id nobody carries changes nothing |
| Notifications.RemoveDisplayed | src/hooks/useNotifier.tsx:81-89 | with unique ids, dismissing the toast at position k removes exactly that entry |
| Notifications.NotificationProvider.constructor | src/hooks/useNotifier.tsx:40 | the default duration is the prop when given, else 3000; the list starts empty |
| Notifications.NotificationProvider.AddNotification | src/hooks/useNotifier.tsx:44-53 | exactly one toast is appended: the fresh id, the message, the type (INFO when absent) and the stored duration |
| Notifications.NotificationProvider.Raise | src/hooks/useNotifier.tsx:44-53 | a handler's request appends exactly one toast after the earlier ones: the fresh id, its message, its type or INFO, and its duration or the provider default |
| Notifications.NotificationProvider.RemoveNotification | src/hooks/useNotifier.tsx:55-59 | the list becomes `RemoveById` of the old list |
| Notifications.AddKeepsIdsUnique | src/hooks/useNotifier.tsx:44-53 | adding under a fresh id keeps the ids unique |
| Notifications.AddThenDismiss | src/hooks/useNotifier.tsx:44-59 | adding a toast and dismissing it by its fresh id restores the list |
| Notifications.UseNotifier | src/hooks/useNotifier.tsx:25-31 | inside a provider it returns the context; outside, the error 'useNotifier must be used within a NotificationProvider' |
| MockApis.CharCodeSum | src/services/mockAPIs.ts:26 | the `reduce` over char codes is non-negative and at least the last code |
| MockApis.CharCodeSumAppend | src/services/mockAPIs.ts:26 | the sum of a concatenation is the sum of the sums |
| MockApis.FetchMockWeather | src/services/mockAPIs.ts:22-37 | keeps the location id; temperature 10 + sum mod 20, so within 10..29; condition entry sum mod 5 of the table |
| MockApis.SwappedHalvesSameWeather | src/services/mockAPIs.ts:26-28 | ids that are rearrangements by swapping halves get the same weather |
| MockApis.LocIdWeather | src/services/mockAPIs.ts:26-28 | an id 'loc'+d gets temperature 10 + (318+d) mod 20 and condition (318+d) mod 5 |
| MockApis.EiffelTowerWeather | src/services/mockAPIs.ts:14-37 | loc1: Cloudy, 17 °C |
| MockApis.LouvreWeather | src/services/mockAPIs.ts:14-37 | loc2: Light Rain, 18 °C |
| MockApis.NotreDameWeather | src/services/mockAPIs.ts:14-37 | loc3: Clear Night, 19 °C |
| MockApis.SacreCoeurWeather | src/services/mockAPIs.ts:14-37 | loc4: Sunny, 20 °C |
| MockApis.GareDuNordWeather | src/services/mockAPIs.ts:14-37 | loc5: Partly Cloudy, 21 °C |
| MockApis.FetchMockPlaceDetails | src/services/mockAPIs.ts:83-98 | details exactly for ids in the table, tagged with the location id |
| MockApis.RegistryHasDetails | src/services/mockAPIs.ts:49-98 | every registry location has details; ids outside loc1..loc5 have none |
| HomePage.FilteredPlaces | src/pages/HomePage.tsx:42-46 | exactly the places whose lower-cased name contains the lower-cased term and whose category matches ('ทั้งหมด' matches all), in order |
| HomePage.RecommendedPlaces | src/pages/HomePage.tsx:48-50 | exactly the places with a tag among the interests, in order; no interests, none |
| HomePage.HiddenGems | src/pages/HomePage.tsx:52 | exactly the hidden-gem places, in order |
| HomePage.HiddenResultsAreEverything | src/pages/HomePage.tsx:95 | while the results section is hidden (no term, 'ทั้งหมด'), the filter keeps every place |
| HomePage.CategoryNarrows | src/pages/HomePage.tsx:42-46 | choosing a category keeps a sublist of the unrestricted results |
| HomePageStatic.StaticHiddenGems | src/pages/HomePage.js:22 | over the static table the hidden gems are places 3 and 4 |
| HomePageStatic.CafeTags | src/data/mockplaces.js:17-85 | only places 3 and 4 carry the tag 'คาเฟ่' |
| HomePageStatic.StaticCafeRecommendations | src/pages/HomePage.js:18-20 | the interest 'คาเฟ่' recommends places 3 and 4 |
| HomePageStatic.StaticCultureResults | src/pages/HomePage.js:12-16 | the category 'วัฒนธรรม' with no term shows places 2 and 3 |
| ProfileApp.OrEmpty | src/app.js:41-57 | a missing snapshot field defaults to the empty list |
| ProfileApp.RemovePlace | src/app.js:158 | the itinerary without any place of that id, an order-preserving sublist |
| ProfileApp.RemoveAbsentPlace | src/app.js:158 | removing an id not on the itinerary changes nothing |
| ProfileApp.AppendNewPlaceKeepsUnique | src/app.js:126-138 | appending a place whose id is absent keeps the ids unique |
| ProfileApp.MainApp.constructor | src/app.js:41-57 | the lists start empty and the message modal closed |
| ProfileApp.MainApp.Show | src/app.js:62-173 | a message opens the modal with its text and type; the lists are unchanged |
| ProfileApp.MainApp.ApplySnapshot | src/app.js:41-57 | an existing document sets the three lists, a missing field defaulting to []; a missing document issues the profile-creating write |
| ProfileApp.MainApp.SnapshotFailed | src/app.js:41-57 | a snapshot error shows the fetch-error message and changes no list |
| ProfileApp.MainApp.HandleSaveInterests | src/app.js:62-82 | signed out: error, no write; otherwise a merge write; on success the interests are replaced and the success text shown, on failure the error text |
| ProfileApp.MainApp.HandleToggleFavorite | src/app.js:84-117 | signed out: error, no write; otherwise a remove or union write by membership; on success the favourites toggle with the matching message |
| ProfileApp.MainApp.HandleAddToItinerary | src/app.js:119-148 | signed out or already present: no write and the matching message; otherwise a union write, and on success the place is appended |
| ProfileApp.MainApp.HandleRemoveFromItinerary | src/app.js:150-173 | signed out: error; otherwise it writes the filtered list, and on success the itinerary becomes it |
| ProfileApp.AddKeepsItineraryUnique | src/app.js:119-148 | adding through the handler keeps the itinerary's ids unique |
| InterestsForm.InterestsForm.constructor | src/components/InterestsForm.js:5-6 | the selection starts as the given interests |
| InterestsForm.InterestsForm.ToggleInterest | src/components/InterestsForm.js:14-18 | the selection becomes its toggle: present afterwards exactly when absent before |
| InterestsForm.InterestsForm.HandleSubmit | src/components/InterestsForm.js:20-29 | an empty selection shows 'กรุณาเลือกความสนใจอย่างน้อยหนึ่งอย่าง' and saves nothing; otherwise the selection is handed to the save callback |
| InterestsForm.ToggleTwiceRestores | src/components/InterestsForm.js:14-18 | clicking an unselected option twice restores the selection |
| InterestsForm.ToggleKeepsSelectionDistinct | src/components/InterestsForm.js:14-18 | toggling keeps the selection free of duplicates |
| InterestsForm.ClicksInOrder | src/components/InterestsForm.js:14-18 | clicking distinct options, starting from nothing, selects them in click order |
| ReviewModal.Validate | src/components/AddReviewModal.js:14-30 | rating 0 is refused first with 'กรุณาให้คะแนนสถานที่'; then blank text with 'กรุณาเขียนรีวิว'; otherwise it submits the rating and the untrimmed text |
| ReviewModal.AddReviewModal.constructor | src/components/AddReviewModal.js:8-9 | rating 0 and empty text |
| ReviewModal.AddReviewModal.ClickStar | src/components/AddReviewModal.js:39-45 | clicking star k sets the rating to k; stars 1..k show filled and the rest empty |
| ReviewModal.AddReviewModal.TypeText | src/components/AddReviewModal.js:56 | the text is stored as typed |
| ReviewModal.AddReviewModal.HandleSubmit | src/components/AddReviewModal.js:14-30 | submits exactly what `Validate` accepts, otherwise shows its message |
| ReviewModal.BlankTextRefused | src/components/AddReviewModal.js:21-26 | a whitespace-only review is refused even with a rating |
| FavoritesManager.RemoveId | tourist-app/src/utils/favoritesManager.ts:49-53 | the list without that id, an order-preserving sublist, with no entry of that id left |
| FavoritesManager.RemoveAbsentId | tourist-app/src/utils/favoritesManager.ts:49-53 | removing an absent id leaves the list |
| FavoritesManager.RemoveAppended | tourist-app/src/utils/favoritesManager.ts:36-53 | removing what was just appended restores the list |
| FavoritesManager.FavoritesStore.constructor | tourist-app/src/utils/favoritesManager.ts:16-27 | the store starts with the given storage slot |
| FavoritesManager.FavoritesStore.GetFavoritePlaces | tourist-app/src/utils/favoritesManager.ts:16-27 | a stored list is returned; a missing or unparsable entry reads as [] |
| FavoritesManager.FavoritesStore.IsPlaceFavorite | tourist-app/src/utils/favoritesManager.ts:30-33 | true exactly when the key holds a readable list with an entry carrying the id; a missing or unreadable key makes nothing a favourite |
| FavoritesManager.FavoritesStore.AddFavoritePlace | tourist-app/src/utils/favoritesManager.ts:36-46 | no place or no id: ignored; a known id: unchanged; otherwise appended; afterwards the id is a favourite |
| FavoritesManager.FavoritesStore.RemoveFavoritePlace | tourist-app/src/utils/favoritesManager.ts:49-53 | always writes back the filtered list; afterwards the id is not a favourite |
| FavoritesManager.AddKeepsIdsUnique | tourist-app/src/utils/favoritesManager.ts:36-46 | adding keeps the stored ids unique |
| FavoritesManager.AddThenRemove | tourist-app/src/utils/favoritesManager.ts:36-53 | adding a new favourite then removing it restores the list |
| PlaceDetails.RecordFor | tourist-app/src/pages/PlaceDetailsPage.tsx:103-112 | ids '1'..'3' get their record; any other id gets the 'unknown' fallback |
| PlaceDetails.Prefix | tourist-app/src/pages/PlaceDetailsPage.tsx:126 | `substring(0, n)`: a prefix of at most n characters, the whole string when short enough |
| PlaceDetails.FavoriteFor | tourist-app/src/pages/PlaceDetailsPage.tsx:117-127 | the favourite keeps id, name and category; the image is the first photo or the placeholder; the description is the first 100 characters plus '...', at most 103 |
| PlaceDetails.ShortDescriptionGetsEllipsis | tourist-app/src/pages/PlaceDetailsPage.tsx:126 | even a short description gets the '...' suffix |
| PlaceDetails.PlaceDetailsPage.constructor | tourist-app/src/pages/PlaceDetailsPage.tsx:97-98 | no place loaded and not a favourite |
| PlaceDetails.PlaceDetailsPage.LoadPlace | tourist-app/src/pages/PlaceDetailsPage.tsx:103-112 | a route id loads its record (or the fallback); for a real record the flag is read from the store; the page is in sync with the store |
| PlaceDetails.PlaceDetailsPage.HandleToggleFavorite | tourist-app/src/pages/PlaceDetailsPage.tsx:114-135 | without a real place nothing happens; otherwise the flag flips; a favourite is filtered out of the stored list, and a non-favourite is appended as `FavoriteFor(place)` (first image or placeholder, 100-character prefix plus '...') after the stored favourites, the store staying as it was when the id is empty or already stored; page and store stay in sync |
| PlacesContext.ErrorText | tourist-app/src/contexts/PlacesContext.tsx:89-92 | `err.message \|\| fallback` |
| PlacesContext.BuildQuery | tourist-app/src/contexts/PlacesContext.tsx:82-85 | `q` present exactly for a non-empty term; `category` exactly for a non-empty category that is not 'all' in any case; `tags` exactly for a non-empty list, comma-joined; no other key |
| PlacesContext.AllInAnyCase | tourist-app/src/contexts/PlacesContext.tsx:83 | 'All' and 'ALL' add no category; a full query comes out as expected |
| PlacesContext.FindById | tourist-app/src/contexts/PlacesContext.tsx:95-97 | `find` by id: none exactly when absent; otherwise the first place with that id |
| PlacesContext.RemovePlace | tourist-app/src/contexts/PlacesContext.tsx:108-113 | the trip without that id, an order-preserving sublist |
| PlacesContext.PlacesProvider.constructor | tourist-app/src/contexts/PlacesContext.tsx:68-76 | the initial state |
| PlacesContext.PlacesProvider.GetPlaceById | tourist-app/src/contexts/PlacesContext.tsx:95-97 | looks in the loaded places first, then the trip; none exactly when in neither |
| PlacesContext.PlacesProvider.BeginFetch | tourist-app/src/contexts/PlacesContext.tsx:79 | loading on, error cleared, all else unchanged |
| PlacesContext.PlacesProvider.FinishFetch | tourist-app/src/contexts/PlacesContext.tsx:87-92 | success replaces the places; failure keeps them and sets the message or 'Failed to fetch places'; loading off |
| PlacesContext.PlacesProvider.FetchPlaces | tourist-app/src/contexts/PlacesContext.tsx:78-93 | sends `BuildQuery`; ends not loading with the places or a non-empty error; the trip fields untouched |
| PlacesContext.PlacesProvider.AddPlaceToTrip | tourist-app/src/contexts/PlacesContext.tsx:99-106 | a place already on the trip changes nothing; otherwise it is appended |
| PlacesContext.PlacesProvider.RemovePlaceFromTrip | tourist-app/src/contexts/PlacesContext.tsx:108-113 | the trip becomes `RemovePlace` of it |
| PlacesContext.PlacesProvider.ClearCurrentTrip | tourist-app/src/contexts/PlacesContext.tsx:115-117 | the trip becomes empty |
| PlacesContext.PlacesProvider.BeginCreateTrip | tourist-app/src/contexts/PlacesContext.tsx:120-125 | submitting on, error and success cleared |
| PlacesContext.PlacesProvider.FinishCreateTrip | tourist-app/src/contexts/PlacesContext.tsx:126-144 | success empties the trip and sets the success flag, returning the trip; failure keeps the trip and records the message or 'Failed to create trip' |
| PlacesContext.PlacesProvider.CreateTrip | tourist-app/src/contexts/PlacesContext.tsx:119-145 | ends not submitting, with success and an empty trip, or with failure and the trip kept |
| PlacesContext.PlacesProvider.ResetSubmitTripStatus | tourist-app/src/contexts/PlacesContext.tsx:147-154 | the three submit fields return to their initial values |
| PlacesContext.AddKeepsTripUnique | tourist-app/src/contexts/PlacesContext.tsx:99-106 | adding keeps the trip's ids unique, and the place's id is on the trip afterwards |
| PlacesContext.AddThenRemoveRestoresTrip | tourist-app/src/contexts/PlacesContext.tsx:99-113 | adding a new place and removing it restores the whole state |
| TripPlanner.TripPlaceIds | tourist-app/src/components/TripPlanner.tsx:54 | the ids of the trip's places, in order |
| TripPlanner.SaveDecision | tourist-app/src/components/TripPlanner.tsx:44-57 | a blank name alerts first, then an empty trip; otherwise submits the untrimmed name with the ids |
| TripPlanner.SaveEnabled | tourist-app/src/components/TripPlanner.tsx:144 | the Save button is enabled exactly when no submit is running, the name has a non-white-space character and the trip has a place |
| TripPlanner.EnabledSaveSubmits | tourist-app/src/components/TripPlanner.tsx:144 | a click the enabled Save button lets through always passes the handler's guards |
| TripPlanner.TripPlannerPanel.constructor | tourist-app/src/components/TripPlanner.tsx:22-23 | empty name, no success message, no pending timer |
| TripPlanner.TripPlannerPanel.TypeTripName | tourist-app/src/components/TripPlanner.tsx:103 | the name is stored as typed |
| TripPlanner.TripPlannerPanel.HandleSaveTrip | tourist-app/src/components/TripPlanner.tsx:44-57 | a failed guard alerts and leaves the provider alone; otherwise `createTrip` runs with the decided trip and the provider's whole new state is stated: on success the trip is emptied and only the success flag is up; on failure the trip stays and the error text is set; places, loading and fetch error are untouched |
| TripPlanner.TripPlannerPanel.HandleClearTrip | tourist-app/src/components/TripPlanner.tsx:59-65 | a confirmed clear empties the trip, clears the name and resets the submit status; a declined one changes nothing |
| TripPlanner.TripPlannerPanel.OnSubmitTripSuccess | tourist-app/src/components/TripPlanner.tsx:25-36 | each run first cancels the pending timer; when the success flag is set, the message shows, the name is cleared and a new timer is pending |
| TripPlanner.TripPlannerPanel.OnSubmitTripSuccessKeepingTimer | tourist-app/src/components/TripPlanner.tsx:25-36 | the first effect as its comment intends: success shows the message, clears the name and sets the timer; a run without success leaves everything, the pending timer included |
| TripPlanner.TripPlannerPanel.OnSuccessTimer | tourist-app/src/components/TripPlanner.tsx:30-33 | a pending timer hides the message and resets the three submit fields; a cancelled one changes nothing |
| TripPlanner.TripPlannerPanel.OnTripPlacesChange | tourist-app/src/components/TripPlanner.tsx:38-41 | the reset effect: exactly the three submit fields are reset |
| TripPlanner.SaveSucceeds | tourist-app/src/components/TripPlanner.tsx:25-57 | an enabled save that succeeds, followed by the effects in declaration order and the timer, ends with an empty trip, an empty name and the success message still up: the reset effect cleared the flag, which cancelled the timer |
| TripPlanner.SaveHidesMessage | tourist-app/src/components/TripPlanner.tsx:25-57 | with the timer kept across the reset, the same commit and the timer firing leave an empty trip, an empty name, the message hidden and the status clear |
| TripPlanner.AddingPlaceClearsError | tourist-app/src/components/TripPlanner.tsx:38-41 | adding a new place changes the trip, so the reset effect clears a submit error; a duplicate changes nothing |
| SearchPage.SearchResults | tourist-app/src/pages/SearchPage.tsx:24-36 | exactly the places matching the term (name or a tag) and the category ('All' matches all), in order |
| SearchPage.EmptySearchKeepsAll | tourist-app/src/pages/SearchPage.tsx:24-36 | an empty term with 'All' keeps every place |
| SearchPage.FoodFindsNothing | tourist-app/src/pages/SearchPage.tsx:9-17 | the menu's 'Food' matches no mock place, whatever the term |
| SearchPage.SeaFindsTheBeach | tourist-app/src/pages/SearchPage.tsx:9-36 | the term 'sea' finds Sunny Beach by its tag |
| SearchPage.SearchPageView.constructor | tourist-app/src/pages/SearchPage.tsx:20-22 | no term, 'All', and all five places |
| SearchPage.SearchPageView.TypeTerm | tourist-app/src/pages/SearchPage.tsx:50 | typing changes the term and not the results |
| SearchPage.SearchPageView.SelectCategory | tourist-app/src/pages/SearchPage.tsx:59 | picking changes the category and not the results |
| SearchPage.SearchPageView.HandleSearch | tourist-app/src/pages/SearchPage.tsx:24-36 | the two-stage filter equals `SearchResults` of the current term and category |
| SearchPage.TypingDoesNotSearch | tourist-app/src/pages/SearchPage.tsx:50-59 | typing and picking leave the results until the next search |
| Api.HandleApiError | tourist-app/src/api.ts:110-135 | with a response: the body's message, else the error's, else 'An unknown server error occurred.', plus status and body; without one: the network message; otherwise the error's message or the set-up default |
| Api.ApiErrorHasMessage | tourist-app/src/api.ts:110-135 | every classified error has a non-empty message |
| Api.Request | tourist-app/src/api.ts:52-103 | `get`/`post`/`put`/`del`: the data on success; on failure exactly `handleApiError` of the client's error |
| AuthContext.AuthProvider.constructor | tourist-app/src/contexts/AuthContext.tsx:31-33 | no token, no user, loading |
| AuthContext.AuthProvider.IsAuthenticated | tourist-app/src/contexts/AuthContext.tsx:88 | `!!token`: a missing or empty token does not authenticate; any non-empty token does |
| AuthContext.AuthProvider.CheckStoredToken | tourist-app/src/contexts/AuthContext.tsx:55-61 | a non-empty stored token becomes the token; loading ends either way |
| AuthContext.AuthProvider.FetchUserInfo | tourist-app/src/contexts/AuthContext.tsx:35-52 | with a token a successful request sets the user; without a token, or on failure, the user is unchanged |
| AuthContext.AuthProvider.OnTokenChange | tourist-app/src/contexts/AuthContext.tsx:63-69 | without a token the user is cleared; with one it is fetched |
| AuthContext.AuthProvider.Login | tourist-app/src/contexts/AuthContext.tsx:72-76 | storage and state get the token; authenticated exactly when it is non-empty |
| AuthContext.AuthProvider.Logout | tourist-app/src/contexts/AuthContext.tsx:78-84 | storage cleared, token and user gone, not authenticated |
| AuthContext.LoginSurvivesReload | tourist-app/src/contexts/AuthContext.tsx:55-76 | after login with a non-empty token, a fresh provider over the same storage is authenticated with it |
| AuthContext.LogoutSurvivesReload | tourist-app/src/contexts/AuthContext.tsx:55-84 | after logout, a fresh provider starts unauthenticated |
| ProtectedRoute.Guard | tourist-app/src/components/ProtectedRoute.tsx:14-46 | no context, or loaded and unauthenticated: redirect to /login with `from`; loading: spinner; loaded and authenticated: the page |
| LoginPage.FailureMessage | tourist-app/src/pages/LoginPage.tsx:61-65 | a server answer shows its non-empty detail or the credentials hint; anything else, the generic text; never empty |
| LoginPage.LoginView.constructor | tourist-app/src/pages/LoginPage.tsx:20-23 | empty fields, not loading, no error |
| LoginPage.LoginView.TypeEmail | tourist-app/src/pages/LoginPage.tsx:20 | the email is stored as typed |
| LoginPage.LoginView.TypePassword | tourist-app/src/pages/LoginPage.tsx:21 | the password is stored as typed |
| LoginPage.LoginView.HandleSubmit | tourist-app/src/pages/LoginPage.tsx:25-70 | an empty field, then a missing context, stops before the request; else posts (username=email, password); success logs in and goes to '/', failure shows `FailureMessage`; loading ends off |
| LoginPage.SignInAuthenticates | tourist-app/src/pages/LoginPage.tsx:42-59 | a successful sign-in with a non-empty token leaves the provider authenticated |
| RegisterPage.ValidateRegistration | tourist-app/src/pages/RegisterPage.tsx:31-43 | an empty field first, then different passwords, then a failed email pattern; otherwise the body (username, email, password) |
| RegisterPage.FailureMessage | tourist-app/src/pages/RegisterPage.tsx:59-70 | a detail list of any length is `Join` of its msg texts with ', ' (a missing msg as ''): empty for none, the one text for one, and the first text, ', ' and the join of the rest for more; a string detail is shown as is; any other detail, the unknown-error text; no answer, the unexpected-error text |
| RegisterPage.RegisterView.constructor | tourist-app/src/pages/RegisterPage.tsx:18-24 | empty fields, no error, no success |
| RegisterPage.RegisterView.TypeFields | tourist-app/src/pages/RegisterPage.tsx:18-21 | the four fields are stored as typed |
| RegisterPage.RegisterView.HandleSubmit | tourist-app/src/pages/RegisterPage.tsx:26-75 | a failed check shows its message and posts nothing, loading untouched; a post ends with the success text and the '/login' redirect, or the failure's message; loading ends off |
| RegisterPage.PlainAddressAccepted | tourist-app/src/pages/RegisterPage.tsx:40 | 'ann@mail.com' passes the pattern |
| RegisterPage.LeadingBlankAccepted | tourist-app/src/pages/RegisterPage.tsx:40 | the pattern is unanchored: ' a@b.c' passes |
| RegisterPage.NoAtRefused | tourist-app/src/pages/RegisterPage.tsx:40 | no '@', no pass |
| RegisterPage.DotAfterAtRefused | tourist-app/src/pages/RegisterPage.tsx:40 | 'a@.cd' fails: the domain part before the dot must be non-empty |
| Text.JoinCons | tourist-app/src/pages/RegisterPage.tsx:61-62 | `join` of two or more parts is the first part, the separator and the join of the rest |
| RegisterPage.ItemsJoined | tourist-app/src/pages/RegisterPage.tsx:61-62 | two items, one without msg, join as 'too short, ' |
| GuideFilters.GetAvailableFilters | wanderlust_guide/app/filters.py:2-8 | five filter ids with their labels |
| GuideFilters.ApplyFilters | wanderlust_guide/app/filters.py:10-36 | the nested loop with its early exit returns the input for no filters, otherwise the places on which every active id is set, in order |
| GuideFilters.KeptIffAllSet | wanderlust_guide/app/filters.py:25-33 | a place is kept exactly when every active id is set, a missing key counting as unset; the result is an order-preserving sublist |
| GuideFilters.MoreFiltersKeepLess | wanderlust_guide/app/filters.py:28-31 | more active ids keep a sublist of what fewer keep |
| GuideFilters.MissingKeyExcluded | wanderlust_guide/app/filters.py:29 | a place lacking an active key is dropped |
| GuideFilters.WifiKeepsOnlyB | wanderlust_guide/app/filters.py:25-33 | Wi-Fi keeps only the place with it set; pet-friendly keeps B and E |
| GuideSearch.TextSearch | wanderlust_guide/app/search.py:1-5 | for any query, the single 'Test Place' hit |
| GuideSearch.VoiceSearch | wanderlust_guide/app/search.py:7-20 | the text search of 'restaurants near me' |
| GuideSearch.ActivitySearch | wanderlust_guide/app/search.py:22-43 | the loop returns the input for an empty activity, otherwise the places listing it (lower-cased, whole string), in order |
| GuideSearch.KeptIffOffered | wanderlust_guide/app/search.py:37-40 | a place is kept exactly when it lists the activity; an order-preserving sublist |
| GuideSearch.CaseInsensitive | wanderlust_guide/app/search.py:39 | spellings equal up to letter case find the same places |
| GuideSearch.NoActivitiesNeverFound | wanderlust_guide/app/search.py:39 | a place without an activity list is never found |
| GuideSearch.HikingFound | wanderlust_guide/app/search.py:37-40 | 'HiKiNg' finds the two hiking places in order, not the cafe or the list-less place |
| GuideMap.FindPlacesInMapArea | wanderlust_guide/app/map_utils.py:1-26 | the places with both coordinates inside the box, bounds included, in order |
| GuideMap.InvertedCornersShowNothing | wanderlust_guide/app/map_utils.py:21-22 | no wrap-around: inverted corners show nothing |
| GuideMap.CornerIsInside | wanderlust_guide/app/map_utils.py:22 | a place on a corner is shown |
| GuideMap.QuadrantOf | wanderlust_guide/app/map_utils.py:60-67 | NW, NE, SW and SE as the four conditions, ties going north and east |
| GuideMap.GetMapClusters | wanderlust_guide/app/map_utils.py:28-73 | above zoom 15 the places as given; otherwise each list is that quadrant's places in order, and the summary maps exactly the non-empty quadrants to their sizes |
| GuideMap.QuadrantsPartition | wanderlust_guide/app/map_utils.py:56-67 | the quadrant sizes add up to the number of places with both coordinates |
| GuideMap.ExactlyOneQuadrant | wanderlust_guide/app/map_utils.py:56-67 | a place is in a quadrant's list exactly when it has coordinates that fall there, so a place lacking one is in none |
| GuideMap.GetPlaceCoordinates | wanderlust_guide/app/map_utils.py:75-80 | the coordinates of the first place named exactly so; none when no place has the name |

## Left out

- Timers and latency are not modelled: the `setTimeout` shells of the route service and the mock APIs, the auto-dismiss of toasts (src/hooks/useNotifier.tsx:61-71), and the length of the trip planner's 3-second success timer (whether it is pending, its firing and its cancellation by the effect's clean-up are modelled). Also the two-second delay before the registration redirect, which is returned as a value.
- `handleSimulateLoading` (src/components/ItineraryBuilder.tsx:72-79) only toggles a spinner behind a timer. The text after line 133 of that file and after line 120 of src/App.tsx is unreachable, so neither is modelled.
- Network and persistence are inputs:
  - Firestore `onSnapshot`/`setDoc`/`updateDoc`, localStorage and the plan service are a success flag or the loaded value;
  - the HTTP client is a `Result` of how the call ended;
  - the axios set-up and interceptors are not modelled;
  - storage JSON is taken to round-trip unchanged; unparsable text is a storage state of its own.
- Random and time-based toast ids are a fresh-id input. Each `new Date().toISOString()` call is a timestamp input of its own, so the two stamps of a saved plan are two inputs.
- `prompt`, `confirm` and `alert` are inputs or an alert log. `console.log` and Python `print` are dropped.
- Rendering, styling and routing components are not modelled, except the guard's decision.
- `handleAddReview` and `handleSubmitReview` in src/app.js are not modelled: they only open and close the review modal and log. The modal's own checks are modelled.
- The Firestore document's server-side merge and array-union semantics are stated as the write issued, not executed.
- Text.Lower folds only ASCII letters, while JavaScript and Python lower-case all of Unicode. The Thai data has no case.
- MockApis.CharCodeSum: `charCodeAt` is taken as the character's code point, which matches only for characters of the Basic Multilingual Plane.
- Plain objects are maps. Inherited prototype keys (a lookup of 'toString' in the route table, say) are not modelled.
- LoginPage.FailureMessage: a server `detail` that is not a string (for example a validation list) is modelled only as absent or a string.
- GuideSearch.ActivitySearch: a place whose 'activities' key holds `None` makes the Python code raise; the model treats it like a missing key.
- GuideFilters.ApplyFilters: attribute values are booleans, as the code assumes; the truthiness of other values is not modelled.
- GuideMap.GetMapClusters: the float averages that fix the centre are not modelled; the centre is an input. Coordinates are reals, with no NaN.
- GuideMap.GetMapClusters: a place whose 'latitude' or 'longitude' key holds `None` makes the averaging `sum` raise a TypeError below zoom 16 (map_utils.py:53-54); the model has no error path for it and, as for a missing key, puts that place in no quadrant. The same holds for GuideMap.ExactlyOneQuadrant and GuideMap.QuadrantsPartition.
- ItineraryBuilder.Reorder: requires both indices in range. The out-of-range behaviour of the same `splice` pair is stated on `JsReorder` instead.
- ItineraryBuilder.OnDragEnd: requires a valid move when there is a destination, which the drag library guarantees.
- Display-only details are not modelled: the rating's `toFixed` (PlaceDetailsPage.tsx), and `totalDistanceKm`, which the table does not keep equal to the segment sum.

## Findings

| source | as written | input that shows it | evidently intended | confidence | as-written member | corrected member |
|---|---|---|---|---|---|---|
| src/data/mockData.ts:71-126 | the route table literal repeats the key 'loc1', so the second entry (loc1→loc5) replaces the first (loc1→loc2) | `calculateMockRoute({originId: 'loc1', destinationId: 'loc2', preferredMode: DRIVING})` answers "No direct routes found from Eiffel Tower to Louvre Museum." | both 'loc1' entries merged, so the request returns the 15-minute drive | not executed | RouteService.EffectiveTableLosesEiffelToLouvre | RouteService.IntendedTableFindsEiffelToLouvre |
| tourist-app/src/components/TripPlanner.tsx:25-41 | after a successful save, the reset effect clears `submitTripSuccess` because the trip was emptied; the first effect's clean-up then cancels the hiding timer, so the success message stays up, although the comment on line 29 says it is hidden after a delay | a successful `handleSaveTrip` with a named, non-empty trip, then waiting past three seconds | the message is hidden three seconds after the save and the status is reset | not executed | TripPlanner.SaveSucceeds | TripPlanner.SaveHidesMessage |
