# Exoplanet identifier — a verified model of its core

The repository is an exoplanet viewer with a small game and a classifier on the side.
This project models the following parts of it.

- **The web frontend.** Code under `frontend/src`, in four parts:
  - A catalog service (`services/exoplanetApi.ts`) with mock listings and details, plus a store of user-created planets.
  - The application root (`App.tsx`). It holds the selection, the popover and the focus, and turns the selection into visualization records.
  - The planet panel (`components/PlanetSelector.tsx`). It handles search, adding and removing planets (at most six), and the custom-planet form with its validation.
  - The 3-D scene (`components/ExoplanetScene.tsx`). The model covers its bookkeeping:
    - incremental reconciliation of the drawn systems with the requested planets;
    - persistent hash-based default geometry;
    - orbital angles and hover pause;
    - the camera's framing rule and its eased transition;
    - the per-focus material styling.
- **The game objects, stand-alone and backend versions.**
  - The lifeform generators (`determine_lifeform.py`) classify the environment and derive colour, communication and diet from a table row.
  - The planet record (`determine_planet_attributes.py`).
  - The two JSON profile formatters (`formatter.py`).
- **The classifier runtime.**
  - Feature-row preparation (`preprocessing.py`): training means overwritten by user values, in feature order.
  - Artifact checks and the thresholded single-row decision (`predict_one.py`).
  - The ground-truth label reader of the evaluation script (`test.py`, `parse_label`).

## Files

Each module is one Dafny file:

- `wrappers.dfy`: Wrappers: `Option` and `Result`.
- `seqs.dfy`: Seqs: filtering and distinctness lemmas.
- `py_values.dfy`: PyValues. Python values (`Float` with NaN and infinities, dictionaries as key/value sequences), `max`, `min`, `int()`, byte channels, `str()` of naturals, `dict.get`.
- `catalog.dfy`: Catalog, the service module. The custom store is a class, `CustomStore`.
- `app.dfy`: App: the root state as a class, `AppState`.
- `planet_selector.dfy`: PlanetSelector: search, selection and form validation, plus the panel as a class, `Selector`.
- `scene_rules.dfy`: SceneRules: the scene's pure rules (defaults, speed, camera, easing, styling).
- `scene.dfy`: Scene: the scene's refs as a class, `SceneManager`, its effects and frame loop, and the click handlers.
- `lifeform_backend.dfy`: LifeformBackend.
- `lifeform_game.dfy`: LifeformGame.
- `planet_attributes.dfy`: PlanetAttributes.
- `formatter_game.dfy`: FormatterGame.
- `formatter_backend.dfy`: FormatterBackend.
- `preprocessing.dfy`: Preprocessing.
- `predict_one.dfy`: PredictOne.
- `parse_label.dfy`: ParseLabel.

## How the source is modelled

- **Host routines become parameters.**
  - `parseFloat` and Python's `float()` on text become `parse` and `parseFloat`.
  - `str()` of a float or any value becomes `show`.
  - The scaler's `transform` and the model's `predict_proba` become `transform` and `predictProba`.
  - The clock-derived custom id becomes `newId`.
  - The ray-cast hover and click results become `hover` and `hit`.
  - The model states its results in terms of these parameters.
- **The scene's addition loop is described on values as well as on the object.** `Scene.Systems` holds the systems part of the scene's refs. `Scene.AddedSystem` is one loop iteration and `Scene.AddedSystems` the whole loop. The methods `AddSystem`, `AddIfNew` and `AddNew` state that the object's new state equals those values, and the lemmas about the values carry the reconciliation properties.
- **Asynchronous fetches complete immediately.**
- **Python floats are `Float`** (`Num`, `NaN`, `Inf`). Every comparison is written out with Python's NaN rule: it is false.

## Model

| member | source | states |
|---|---|---|
| Catalog.DisplayName | frontend/src/services/exoplanetApi.ts:167-169 | The Kepler name when it is present and non-empty, the KOI id otherwise; the result is empty only for an empty id. |
| Catalog.StarBucket | frontend/src/services/exoplanetApi.ts:172-179 | The star temperature falls into one of six colour bands. |
| Catalog.PlanetBucket | frontend/src/services/exoplanetApi.ts:182-191 | The planet temperature falls into one of eight colour bands. |
| Catalog.StarColorIsBucketColor | frontend/src/services/exoplanetApi.ts:172-179 | The star colour is the palette entry of the temperature's band, for band cuts 3500, 5000, 6000, 7500 and 10000 K. |
| Catalog.PlanetColorIsBucketColor | frontend/src/services/exoplanetApi.ts:182-191 | The planet colour is the palette entry of the temperature's band, for cuts 100 to 2000 K. |
| Catalog.StarBucketMonotonic | frontend/src/services/exoplanetApi.ts:172-179 | A hotter star never falls into a cooler band. |
| Catalog.PlanetBucketMonotonic | frontend/src/services/exoplanetApi.ts:182-191 | A hotter planet never falls into a cooler band. |
| Catalog.StarColorsDistinguishBuckets | frontend/src/services/exoplanetApi.ts:172-179 | Two temperatures get the same star colour exactly when they are in the same band. |
| Catalog.PlanetColorsDistinguishBuckets | frontend/src/services/exoplanetApi.ts:182-191 | Two temperatures get the same planet colour exactly when they are in the same band. |
| Catalog.CutsAtOrBelowSplits | frontend/src/services/exoplanetApi.ts:172-191 | The band index counts exactly the cuts at or below the temperature. |
| Catalog.SolarRadiiToAU | frontend/src/services/exoplanetApi.ts:194-196 | The result times 215 is the input. |
| Catalog.SolarRadiiToAUStrictlyIncreasing | frontend/src/services/exoplanetApi.ts:194-196 | Zero maps to zero, and the conversion is strictly increasing. |
| Catalog.MockDetailsFiledUnderOwnId | frontend/src/services/exoplanetApi.ts:21-122 | Every mock details record is stored under its own KOI id. |
| Catalog.LookupDetails | frontend/src/services/exoplanetApi.ts:148 | Custom details win over mock details; the result is absent exactly when neither has the id. |
| Catalog.CustomStore.constructor | frontend/src/services/exoplanetApi.ts:18-19 | The custom list and the custom details both start empty. |
| Catalog.CustomStore.ListPlanets | frontend/src/services/exoplanetApi.ts:124-138 | The listing is the custom items followed by the ten mock items, in that order. |
| Catalog.CustomStore.FetchDetails | frontend/src/services/exoplanetApi.ts:140-153 | The stored custom record if there is one, else the mock lookup; a found record carries the requested id. |
| Catalog.CustomStore.AddCustomPlanet | frontend/src/services/exoplanetApi.ts:156-164 | The planet is put at the front of the listing and the rest of the listing is unchanged. Its details are fetched back unchanged, every other id fetches what it fetched before, and the store invariant is kept. |
| App.StellarTemperatureOrSun | frontend/src/App.tsx:32-35 | A present, non-zero stellar temperature is kept; a missing or zero one becomes 5778 K. |
| App.ToVisualizationParams | frontend/src/App.tsx:25-36 | Each visualization field is the planet's field, the colour function of it, or the defaulted stellar temperature. |
| App.GetVisualizationParams | frontend/src/App.tsx:19-37 | One record per selected planet, in selection order. |
| App.FindByKepoiName | frontend/src/App.tsx:72 | The result is absent exactly when no record has the id; a found record is one of the inputs. |
| App.InfoShownIffSelected | frontend/src/App.tsx:72 | The popover has a planet exactly when that id is selected, and then it shows that planet's record. |
| App.AppState.constructor | frontend/src/App.tsx:9-16 | Empty selection, closed popover, nothing chosen and nothing focused. |
| App.AppState.VisualizationParamsNow | frontend/src/App.tsx:45 | One record per selected planet, in selection order: the record at each index is that planet's visualization record (copied distance, diameter and period, colours from the temperatures, the Sun's temperature when none is known, the display name). |
| App.AppState.SelectedPlanetInfo | frontend/src/App.tsx:72 | A shown planet is one of the current records and has the chosen id; with nothing chosen nothing is shown. |
| App.AppState.SetSelectedPlanets | frontend/src/App.tsx:9 | Replaces the selection and changes nothing else. |
| App.AppState.HandlePlanetInfoSelect | frontend/src/App.tsx:40-43 | The popover is open exactly when a planet was given, and the chosen id is that planet's id (or none). |
| App.AppState.HandlePlanetFocus | frontend/src/App.tsx:47-51 | Focus and chosen id both become the argument, the popover opens, and the selection is unchanged. |
| PlanetSelector.ToLower | frontend/src/components/PlanetSelector.tsx:64-68 | ASCII lowercasing keeps the length and maps each character. |
| PlanetSelector.Includes | frontend/src/components/PlanetSelector.tsx:64-68 | `includes` holds exactly when the text occurs at some position. |
| PlanetSelector.FilterPlanets | frontend/src/components/PlanetSelector.tsx:64-68 | Exactly the listing items whose lowercased display name or id contains the lowercased term, in listing order. |
| PlanetSelector.EmptySearchKeepsAll | frontend/src/components/PlanetSelector.tsx:64-68 | An empty search keeps the whole listing. |
| PlanetSelector.SearchIgnoresTermCase | frontend/src/components/PlanetSelector.tsx:64-68 | Terms that agree after lowercasing filter the same way. |
| PlanetSelector.WithoutPlanet | frontend/src/components/PlanetSelector.tsx:94-96 | Removal leaves no planet with the id, keeps every other planet, and adds nothing. |
| PlanetSelector.RemovalKeepsOrder | frontend/src/components/PlanetSelector.tsx:94-96 | Removal distributes over concatenation, so the remaining planets keep their order. |
| PlanetSelector.RemovingUnselectedIsNoOp | frontend/src/components/PlanetSelector.tsx:94-96 | Removing an id that is not selected changes nothing. |
| PlanetSelector.RemovalKeepsSelectionValid | frontend/src/components/PlanetSelector.tsx:94-96 | Removal keeps the selection at most six planets with distinct ids. |
| PlanetSelector.WithField | frontend/src/components/PlanetSelector.tsx:180-185 | The changed field holds the new value and every other field is unchanged. |
| PlanetSelector.EmptyRequiredSpec | frontend/src/components/PlanetSelector.tsx:111-117 | The first pass lists exactly the empty required fields, and finds one exactly when some is empty. |
| PlanetSelector.InvalidRequiredSpec | frontend/src/components/PlanetSelector.tsx:120-137 | The second pass lists exactly the required fields that parse to NaN or to a value at most 0. |
| PlanetSelector.ValidateFormSpec | frontend/src/components/PlanetSelector.tsx:109-137 | The validation's outcomes, in order: (1) Missing fields, exactly when a required field is empty, naming exactly those fields. (2) Otherwise, invalid numbers exactly when some field is NaN or not positive, naming exactly those. (3) Otherwise, acceptance with the parsed values. The name is never checked. |
| PlanetSelector.CustomDetails | frontend/src/components/PlanetSelector.tsx:140-150 | The record has the generated id, an empty name stored as null, and each of the five parsed numbers in its own field: orbital period, orbital radius, planet radius, stellar radius and temperature. |
| PlanetSelector.WithPlanetColor | frontend/src/components/PlanetSelector.tsx:80-85 | A selected planet is its details plus the planet colour of its temperature. |
| PlanetSelector.Selector.constructor | frontend/src/components/PlanetSelector.tsx:34-47 | The panel state starts loading, with an empty search, no add in progress, the dialog closed and an empty form. |
| PlanetSelector.Selector.LoadPlanets | frontend/src/components/PlanetSelector.tsx:53-62 | The listing becomes the store's listing, loading ends, and nothing else changes. |
| PlanetSelector.Selector.SetSearchTerm | frontend/src/components/PlanetSelector.tsx:348 | The search term becomes the input. |
| PlanetSelector.Selector.AddPlanet | frontend/src/components/PlanetSelector.tsx:74-92 | A selected id, or a selection of six, leaves the selection unchanged. Otherwise the fetched record (if any) is appended with its colour. A valid selection stays valid. |
| PlanetSelector.Selector.RemovePlanet | frontend/src/components/PlanetSelector.tsx:94-96 | The selection becomes the selection without the id. |
| PlanetSelector.Selector.RemoveButtonClicked | frontend/src/components/PlanetSelector.tsx:384-391 | Removing the focused planet first clears the focus (chosen id cleared, popover open); otherwise focus and popover are untouched. The planet is removed either way. |
| PlanetSelector.Selector.SelectedPlanetClicked | frontend/src/components/PlanetSelector.tsx:98-101 | Clicking a selected planet focuses it and opens its popover. |
| PlanetSelector.Selector.FormChanged | frontend/src/components/PlanetSelector.tsx:180-185 | The form gets the one field replaced. |
| PlanetSelector.Selector.SubmitCustomPlanet | frontend/src/components/PlanetSelector.tsx:109-178 | A rejected form returns the validation's rejection and changes nothing: the form, the dialog, the listing, the search term, the loading and adding flags, the selection and the store all stay as they were. An accepted one is stored at the front of the custom list and the listing reloaded. It is appended to the selection below six, the form is reset and the dialog closed, and loading has ended. A valid selection stays valid for a fresh id. |
| PlanetSelector.Selector.CommitCustomPlanet | frontend/src/components/PlanetSelector.tsx:153-177 | The accepting half of the submission states the whole new state. |
| SceneRules.Slot | frontend/src/components/ExoplanetScene.tsx:457-458 | The hash slot is one of the six base entries. |
| SceneRules.FreshDefaults | frontend/src/components/ExoplanetScene.tsx:451-469 | Fresh defaults keep every field but the geometry. Distance, size and period are the slot's base values offset by the hash within [-2, 1.96], [-0.2, 0.19] and [-100, 99]. |
| SceneRules.FreshDefaultsDependOnIdOnly | frontend/src/components/ExoplanetScene.tsx:456-464 | Two records with the same id get the same default geometry. |
| SceneRules.FreshDefaultsSigns | frontend/src/components/ExoplanetScene.tsx:462-464 | Default distance and size are positive. A non-positive default period happens only in slot 0 with a hash below 13 modulo 200. |
| SceneRules.NegativeDefaultPeriodExample | frontend/src/components/ExoplanetScene.tsx:464 | The id "CUSTOM999950", which the form can generate, gets the default period -8 days, so that planet orbits backwards. |
| SceneRules.AngleStep | frontend/src/components/ExoplanetScene.tsx:117-125 | The per-frame angle step times the period is 2π·100·0.01. A zero period gives no finite step. |
| SceneRules.ShorterPeriodMovesFaster | frontend/src/components/ExoplanetScene.tsx:122-124 | A shorter positive period gives a strictly larger positive step. |
| SceneRules.Advance | frontend/src/components/ExoplanetScene.tsx:304-309 | An angle stays finite after a frame exactly when it was finite and the period is non-zero. |
| SceneRules.StartAngle | frontend/src/components/ExoplanetScene.tsx:298 | The starting angle is non-negative, and below 2π for an index below the count. |
| SceneRules.MaxOrbitalRadius | frontend/src/components/ExoplanetScene.tsx:91 | At least 5, at least every distance, and equal to 5 or to one of them. |
| SceneRules.CameraBaseDistanceSpec | frontend/src/components/ExoplanetScene.tsx:60-104 | The camera distance by case: (1) No planets gives 25. (2) A focused planet that is on screen gives at least 13 and at least 2.5 times its distance plus 5. (3) Otherwise (no focus, or a focus not on screen) it is at least 40 and at least 3 times every distance plus 15. |
| SceneRules.FocusedDistanceMonotonic | frontend/src/components/ExoplanetScene.tsx:69-74 | Moving the focused planet's orbit outward never brings the camera closer. |
| SceneRules.FindFirst | frontend/src/components/ExoplanetScene.tsx:70 | The focus search finds the first record with the id. |
| SceneRules.SmoothstepSpec | frontend/src/components/ExoplanetScene.tsx:248-250 | The easing fixes 0 and 1, maps [0, 1] into [0, 1], and never decreases there. |
| SceneRules.LerpBetween | frontend/src/components/ExoplanetScene.tsx:252-256 | Interpolation with a factor in [0, 1] keeps every coordinate between the end points and hits both ends. |
| SceneRules.TransitionRun | frontend/src/components/ExoplanetScene.tsx:236-260 | Each eased frame keeps the camera between start and target. A transition from progress 0 reaches the target on its 50th frame and ends with progress reset to 0. |
| SceneRules.InitialStyle | frontend/src/components/ExoplanetScene.tsx:531-580 | New systems get the planet and star colours, full opacity, and an orbit at opacity 0.2. |
| SceneRules.FocusStyleSpec | frontend/src/components/ExoplanetScene.tsx:332-364 | Planets always stay in their own colour at full opacity. A star is shown exactly when nothing is focused or its own system is, and then its orbit pulses. Otherwise the star is grey at opacity 0 and the orbit at 0.05. |
| Scene.ReconciledIds | frontend/src/components/ExoplanetScene.tsx:477-593 | The reconciled id sequence has exactly the requested ids, with no duplicates when old and new ids are distinct. It is the old sequence when the id sets agree. |
| Scene.RemovedAll | frontend/src/components/ExoplanetScene.tsx:481-482 | The removed ids are exactly the drawn ids that are no longer requested. |
| Scene.RemovalKeys | frontend/src/components/ExoplanetScene.tsx:481-510 | After removal the angles belong exactly to the kept systems and the hover is one of them. |
| Scene.RemovalKeepsRequested | frontend/src/components/ExoplanetScene.tsx:486-492 | Requested ids keep their angles, and the hover is cleared exactly when its id is no longer requested. |
| Scene.RemovalIdempotent | frontend/src/components/ExoplanetScene.tsx:481-510 | Removal changes nothing when every drawn id is still requested. |
| Scene.NoFreshIds | frontend/src/components/ExoplanetScene.tsx:513-514 | Nothing is added when every requested id is already drawn. |
| Scene.AfterAddition | frontend/src/components/ExoplanetScene.tsx:513-593 | After the addition loop the angles belong exactly to the drawn systems, and each system shows its stored geometry. Old angles and stored defaults are kept. Adding nothing changes nothing. |
| Scene.KeptEntriesFacts | frontend/src/components/ExoplanetScene.tsx:481-510 | The kept systems are exactly the old ones with a requested id, unchanged. |
| Scene.DropStale | frontend/src/components/ExoplanetScene.tsx:481-510 | The removal loop keeps the requested systems in order and drops the angles of removed ids. It clears a hover on a removed id, and reports a removed focused prop. |
| Scene.FrameSystems | frontend/src/components/ExoplanetScene.tsx:290-370 | The frame loop restyles every system for the focus and advances every non-hovered angle once per system. |
| Scene.FrameKeepsValid | frontend/src/components/ExoplanetScene.tsx:290-370 | A frame keeps one angle per drawn system, and keeps the systems and their geometry. |
| Scene.Restyled | frontend/src/components/ExoplanetScene.tsx:327-364 | Restyling keeps the number of systems and each system's record. |
| Scene.AnglesAfterKeys | frontend/src/components/ExoplanetScene.tsx:295-300 | The frame gives an angle to every drawn system and to nothing else. |
| Scene.HoveredPlanetPaused | frontend/src/components/ExoplanetScene.tsx:292-309 | The hovered planet's angle is unchanged by a frame. |
| Scene.FrameAdvancesOnce | frontend/src/components/ExoplanetScene.tsx:290-309 | A drawn, unhovered planet moves by exactly one step of its own period, and undrawn ids keep their angles. |
| Scene.Created | frontend/src/components/ExoplanetScene.tsx:515-591 | The system created for a fresh planet has the planet's id and record, the geometry stored for its id or fresh hash geometry, and the creation materials. |
| Scene.CreatedAll | frontend/src/components/ExoplanetScene.tsx:513-593 | One created system per fresh planet, in order. |
| Scene.CreatedSnoc | frontend/src/components/ExoplanetScene.tsx:513-593 | One step of the addition loop keeps the systems equal to the old ones followed by the created ones, whatever defaults the loop stored meanwhile. |
| Scene.AddedSystem | frontend/src/components/ExoplanetScene.tsx:515-591 | One iteration of the addition loop: one system appended with the planet's id and record, its memoized geometry and the creation materials. Defaults and angles grow by exactly its id, and old entries keep their values. A new angle is the starting angle for the current number of systems. The hover is kept. |
| Scene.AddedSystems | frontend/src/components/ExoplanetScene.tsx:513-593 | The addition loop never touches the hover and never removes a system. |
| Scene.AddingSnoc | frontend/src/components/ExoplanetScene.tsx:513-593 | Adding one fresh system keeps the loop invariant: old systems first, every system drawn with its memoized geometry, new ones with the creation materials, defaults and angles grown only by the added ids. |
| Scene.AddedSystemsGrow | frontend/src/components/ExoplanetScene.tsx:513-593 | The whole addition loop keeps that invariant. |
| Scene.AddedSystemsIds | frontend/src/components/ExoplanetScene.tsx:513-593 | After the addition loop the drawn ids are the old ones followed by the fresh requested ids, in request order. |
| Scene.AddedSystemsCreated | frontend/src/components/ExoplanetScene.tsx:513-593 | After the addition loop the systems are the old ones followed by the created system of each fresh planet. |
| Scene.AddedSystemsMeetSpec | frontend/src/components/ExoplanetScene.tsx:513-593 | The addition half keeps the state consistent and keeps old angles and stored defaults. The systems become the old ones followed by the created ones, with their starting angles when no id repeats. Adding nothing changes nothing. |
| Scene.ReconciledSystems | frontend/src/components/ExoplanetScene.tsx:473-593 | Both halves together give the reconciled id sequence and the system-by-system result. |
| Scene.ReconciliationMeetsSpec | frontend/src/components/ExoplanetScene.tsx:473-593 | Removal followed by addition, from a consistent state, gives a consistent state that satisfies `SystemsReconciled`. |
| Scene.SceneManager.constructor | frontend/src/components/ExoplanetScene.tsx:127-140 | Mounting gives an empty scene with the camera at the framing distance for the initial props, and no transition. |
| Scene.SceneManager.SyncFocus | frontend/src/components/ExoplanetScene.tsx:432-434 | The focus ref becomes the prop. |
| Scene.SceneManager.GetPlanetDefaults | frontend/src/components/ExoplanetScene.tsx:437-470 | A known id gets its stored geometry over the current record; a new id gets fresh defaults, which are stored. Other stored entries are unchanged, and each entry is filed under its own id. |
| Scene.SceneManager.RemoveStale | frontend/src/components/ExoplanetScene.tsx:481-510 | The state after the removal loop: the kept systems, the angles without the removed ids, and the hover cleared for a removed id. A removed focused prop is reported. |
| Scene.SceneManager.AddSystem | frontend/src/components/ExoplanetScene.tsx:515-591 | The new state is exactly `AddedSystem` of the old one (see that row), and stored defaults stay filed under their own ids. |
| Scene.SceneManager.AddIfNew | frontend/src/components/ExoplanetScene.tsx:513-522 | One step of the addition loop: a planet whose id was drawn before the update changes nothing; any other planet gives exactly `AddedSystem` of the old state. |
| Scene.SceneManager.AddNew | frontend/src/components/ExoplanetScene.tsx:513-593 | The new state is exactly `AddedSystems` of the old one over the requested planets: the loop handles them in request order. What that state satisfies is proved in `Scene.AddedSystemsMeetSpec`. |
| Scene.SceneManager.RetargetCamera | frontend/src/components/ExoplanetScene.tsx:601-622 | A target more than 0.1 away starts a transition from the current camera. Otherwise the camera snaps to the target. |
| Scene.SceneManager.UpdateSystems | frontend/src/components/ExoplanetScene.tsx:473-593 | The new state is consistent and satisfies `SystemsReconciled`. The drawn ids become the reconciled sequence, and the systems are the kept ones, unchanged and in order, then for each fresh planet in request order one system: its record with the stored geometry (fresh hash geometry for a new id) and the creation materials. With no repeated id each new system has the starting angle of its position. Requested angles and all stored defaults are kept. A hover on an unrequested id is cleared, and the focus is reported cleared exactly when the focused planet was drawn and is no longer requested. Identical id sets change nothing. |
| Scene.SceneManager.Reconcile | frontend/src/components/ExoplanetScene.tsx:473-624 | The props effect: the systems are reconciled exactly as in the UpdateSystems row (`SystemsReconciled`). The camera then either starts a transition to the new framing target, when that is more than 0.1 away, or jumps to it. The scene stays valid. |
| Scene.SceneManager.Frame | frontend/src/components/ExoplanetScene.tsx:231-370 | One frame: time advances by 0.01, the camera takes one transition step, and the hover is updated. Every system is restyled and every unhovered angle advanced. |
| Scene.SceneManager.AdvanceSystems | frontend/src/components/ExoplanetScene.tsx:290-370 | The per-system loop of a frame, on the object's state. |
| Scene.InfoClicked | frontend/src/components/ExoplanetScene.tsx:626-632 | With the popover open the info button closes it and clears the choice; otherwise it opens the popover. |
| Scene.PlanetClicked | frontend/src/components/ExoplanetScene.tsx:638-656 | A click that hits a planet focuses it and opens its popover; a miss changes nothing. |
| Scene.ShowAllClicked | frontend/src/components/ExoplanetScene.tsx:680-687 | "Show All Systems" clears the focus and the choice and opens the popover. |
| Scene.PropsChanged | frontend/src/components/ExoplanetScene.tsx:473-624 | The scene reconciles to the root's current records and focus, as `SystemsReconciled` states. The focus is cleared exactly when the focused planet was drawn and is no longer selected. Then focus and popover id become null and the popover opens. Otherwise focus, popover id and popover are unchanged. The selection never changes. |
| PyValues.Max | Game-Aspect/game_objects/determine_lifeform.py:59 | `max(x, c)` is at least c and is x when x ≥ c. It is NaN for NaN, since NaN comparisons are false. |
| PyValues.Min | Game-Aspect/game_objects/determine_lifeform.py:80-82 | `min(x, c)` is at most c and is x when x ≤ c; it is NaN for NaN. |
| PyValues.Truncate | backend/model/test/test.py:42 | `int()` truncates toward zero. |
| PyValues.Int | backend/model/test/test.py:48 | `int()` of a float succeeds exactly for finite values. |
| PyValues.Channel | Game-Aspect/game_objects/determine_lifeform.py:80-82 | `int(min(max(x, 0), 255))` is a byte. |
| PyValues.Normalized | Game-Aspect/game_objects/determine_lifeform.py:80-82 | `(x - low) / span * 255` is NaN exactly for NaN, is at most 0 exactly when x ≤ low, and keeps infinities. |
| PyValues.ByteOfRange | backend/game-aspect/game_objects/determine_lifeform.py:96-98 | The clamp-and-truncate gives 0 at or below 0, 255 at or above 255, and the floor in between. |
| PyValues.ByteOfMonotonic | backend/game-aspect/game_objects/determine_lifeform.py:96-98 | The clamp-and-truncate never decreases. |
| PyValues.Decimal | backend/game-aspect/game_objects/determine_lifeform.py:100 | `str()` of a natural is a non-empty string of digits with no leading zero. |
| PyValues.DecimalRoundTrip | backend/game-aspect/game_objects/determine_lifeform.py:100 | Reading the digits back gives the number. |
| PyValues.Lookup | Game-Aspect/formatter.py:35-58 | A dictionary lookup is absent exactly for a missing key. In a dictionary with distinct keys it is the key's value. |
| PyValues.Get | backend/game-aspect/game_objects/determine_lifeform.py:56-58 | `row.get(key, default)` is the cell if the key is present, the default otherwise. |
| PyValues.Known | Game-Aspect/game_objects/determine_lifeform.py:38-40 | A missing or NaN cell reads as the default; the result is never NaN. |
| LifeformBackend.ClassifyEnvironment | backend/game-aspect/game_objects/determine_lifeform.py:149-186 | The environment decision tree, one if-and-only-if per class: (1) Volcanic at 700 K or more. (2) Gas giant above 3 radii. (3) Aquatic for 1.5–3 radii, 200–320 K and moderate insolation. (4) Terrestrial below 1.5 radii in the same band. (5) Unknown for a NaN input or for exactly 320 K with no other class. |
| LifeformBackend.MissingColumnIsUnknown | backend/game-aspect/game_objects/determine_lifeform.py:150-157 | A missing column reads as NaN, and the environment is then unknown. |
| LifeformBackend.IceAndDesert | backend/game-aspect/game_objects/determine_lifeform.py:167-173 | Cold or dim planets are ice, and hot or bright ones desert, in that priority, below the first two branches. |
| LifeformBackend.ColorOf | backend/game-aspect/game_objects/determine_lifeform.py:85-99 | The colour fails (division by zero) exactly for insolation -1. Otherwise each channel is a byte: red is 0 at or below 3000 K and 255 from 7000 K, green is at most 200 for non-negative insolation and 0 below -1. |
| LifeformBackend.GetColor | backend/game-aspect/game_objects/determine_lifeform.py:85-100 | `get_color` fails exactly when the colour does. Otherwise it returns a parenthesised `str((r, g, b))`. |
| LifeformBackend.RgbText | backend/game-aspect/game_objects/determine_lifeform.py:100 | The rendered triple is parenthesised. |
| LifeformBackend.CommunicationOf | backend/game-aspect/game_objects/determine_lifeform.py:102-116 | Sonar exactly in the aquatic environment. Chemical signals exactly elsewhere when the cell is above 350 K. In the remaining branch, low-frequency sound exactly above size 3, vocal communication otherwise. A NaN cell falls through to the size test. |
| LifeformBackend.DietOf | backend/game-aspect/game_objects/determine_lifeform.py:118-136 | Carnivore exactly when not aquatic and insolation is above 2. Aquatic: omnivore exactly above size 3. In the remaining branch, herbivore exactly when the cell is below 250 K, omnivore otherwise, so a NaN cell never gives herbivore. |
| LifeformBackend.Lifeform.constructor | backend/game-aspect/game_objects/determine_lifeform.py:13-20 | Stores the row, the private environment and the base size; the public environment is absent. |
| LifeformBackend.Lifeform.SetBaseSize | backend/game-aspect/game_objects/determine_lifeform.py:39-43 | A positive value is stored. Anything else, NaN included, raises `ValueError` and keeps the old value. |
| LifeformBackend.Lifeform.SetEnvironment | backend/game-aspect/game_objects/determine_lifeform.py:27-28 | The public environment becomes the value. |
| LifeformBackend.Lifeform.GetEnvironment | backend/game-aspect/game_objects/determine_lifeform.py:138-186 | Returns the row's classification and stores it in the public environment. |
| LifeformBackend.ClassifyTwice | backend/game-aspect/game_objects/determine_lifeform.py:138-186 | Classifying twice gives and stores the same environment. |
| LifeformGame.ColorOf | Game-Aspect/game_objects/determine_lifeform.py:61-84 | Each channel is a byte. Red is 0 at or below 100 K and 255 from 1100 K. Green is 0 at or below 0.1 Earth masses and 255 from 10.1. Blue is 0 at or below 0.1 Earth radii and 255 from 20.1. |
| LifeformGame.DefaultColor | Game-Aspect/game_objects/determine_lifeform.py:75-84 | A row with no usable cells gets colour (47, 22, 11). |
| LifeformGame.CommunicationOf | Game-Aspect/game_objects/determine_lifeform.py:87-116 | One of seven messages. Sonar when aquatic. In a forest, by size above 5. Vibrations in a desert. Chemical signals exactly when none of those applies and the planet is above 350 K. In the remaining branch, low-frequency sound above size 3 and vocal communication otherwise. |
| LifeformGame.DietOf | Game-Aspect/game_objects/determine_lifeform.py:118-149 | One of three diets. Carnivore exactly in a forest above size 5, omnivore in a forest otherwise. In a desert, herbivore exactly above 350 K. Aquatic: omnivore exactly above size 3. Elsewhere, omnivore exactly above size 4. |
| LifeformGame.Lifeform.constructor | Game-Aspect/game_objects/determine_lifeform.py:6-9 | Stores the row, base size and environment; the underscored attributes are absent. |
| LifeformGame.Lifeform.WithDefaults | Game-Aspect/game_objects/determine_lifeform.py:6 | The defaults are base size 2.0 and environment "terrestrial". |
| LifeformGame.Lifeform.GetEnvironment | Game-Aspect/game_objects/determine_lifeform.py:14-15 | `AttributeError` exactly while `_environment` is unset, else its value. |
| LifeformGame.Lifeform.SetEnvironment | Game-Aspect/game_objects/determine_lifeform.py:17-18 | `_environment` becomes the value and the getter returns it. |
| LifeformGame.Lifeform.SetBaseSize | Game-Aspect/game_objects/determine_lifeform.py:20-24 | A positive value is stored in `_base_size`. Anything else raises `ValueError` and leaves it. |
| LifeformGame.SettersLeaveBehaviour | Game-Aspect/game_objects/determine_lifeform.py:17-24 | The setters do not change diet, communication or `base_size`. |
| PlanetAttributes.Exoplanet.constructor | Game-Aspect/game_objects/determine_planet_attributes.py:9-12 | Stores habitability, size and atmosphere. The environment is absent, so its getter raises `AttributeError`. |
| PlanetAttributes.Exoplanet.SetHabitable | Game-Aspect/game_objects/determine_planet_attributes.py:14-15 | The getter returns the new value. |
| PlanetAttributes.Exoplanet.SetSize | Game-Aspect/game_objects/determine_planet_attributes.py:17-18 | The getter returns the new value. |
| PlanetAttributes.Exoplanet.SetEnvironment | Game-Aspect/game_objects/determine_planet_attributes.py:20-21 | The getter returns the new value. |
| PlanetAttributes.Exoplanet.GetEnvironment | Game-Aspect/game_objects/determine_planet_attributes.py:30-31 | Succeeds exactly once an environment was set; otherwise `AttributeError`. |
| PlanetAttributes.SettersAreIndependent | Game-Aspect/game_objects/determine_planet_attributes.py:14-31 | Each setter changes only its own attribute. |
| FormatterGame.LifeParameters | Game-Aspect/formatter.py:45-56 | The ten lifeform keys in source order, each holding its attribute when habitable and `None` otherwise. |
| FormatterGame.FormatToJson | Game-Aspect/formatter.py:35-58 | The dictionary has keys `text_description` then `parameters`, holding the description, the habitability flag and the lifeform parameters. |
| FormatterGame.NotHabitableDescription | Game-Aspect/formatter.py:27-31 | An uninhabitable planet's description is "This planet is not habitable.", a blank line, and "No known lifeforms.". |
| FormatterGame.HabitableDescription | Game-Aspect/formatter.py:13-31 | A habitable planet's description opens with the habitability sentence and contains the radiation-shielding line. |
| FormatterBackend.LifeParameters | backend/game-aspect/formatter.py:48-60 | The five lifeform keys. Each value is `None` exactly when the planet is not habitable; otherwise it is the getter's result. |
| FormatterBackend.Profile | backend/game-aspect/formatter.py:37-62 | The profile dictionary: the description, the planet's habitability and environment, and the lifeform parameters. |
| FormatterBackend.FormatToJson | backend/game-aspect/formatter.py:13-62 | It fails exactly when the planet's environment raises, or on a habitable planet when the colour raises. An uninhabitable planet is described as "None", blank line, not-habitable sentence, blank line, "No known lifeforms.". The lifeform values are `None` exactly when the planet is not habitable. |
| FormatterBackend.HabitableProfile | backend/game-aspect/formatter.py:13-33 | A habitable planet's description is its environment, the habitability sentence and the life text. The environment line runs into the communication line. |
| FormatterBackend.FormatObjects | backend/game-aspect/formatter.py:13-62 | The getters are called in the source's order on the objects. The lifeform stores its classification exactly when the habitable branch reaches its environment getter. |
| Preprocessing.Put | backend/model/runtime/preprocessing.py:30 | Item assignment keeps a key's position and appends a new key. |
| Preprocessing.ToDict | backend/model/runtime/preprocessing.py:25 | `to_dict` has exactly the series' keys, in series order when they are distinct. |
| Preprocessing.ToDictLastValue | backend/model/runtime/preprocessing.py:25 | A repeated key holds its last value. |
| Preprocessing.Merge | backend/model/runtime/preprocessing.py:24-30 | Means' keys in means' order. User values replace their features and other user keys are dropped. |
| Preprocessing.MergeIdempotent | backend/model/runtime/preprocessing.py:28-30 | Overwriting with the same user values again changes nothing. |
| Preprocessing.MergeNothing | backend/model/runtime/preprocessing.py:28-30 | With no user values the row is the means. |
| Preprocessing.FillFeatures | backend/model/runtime/preprocessing.py:28-30 | The overwrite loop computes the merge. |
| Preprocessing.InColumnOrder | backend/model/runtime/preprocessing.py:33 | The one-row frame lists the dictionary's values in its key order. |
| Preprocessing.Preprocess | backend/model/runtime/preprocessing.py:4-38 | Scales the merged row in the means' column order. |
| PredictOne.IndexOfOne | backend/model/runtime/predict_one.py:39 | `classes.index(1)` is the first class equal to 1. |
| PredictOne.LoadArtifacts | backend/model/runtime/predict_one.py:16-41 | Loading fails in order: a missing `mean_` or a wrong mean length gives `RuntimeError`, and no class 1 gives `ValueError`. Success builds the means in feature order and the first class-1 index. |
| PredictOne.Decide | backend/model/runtime/predict_one.py:76-87 | Candidate exactly when the probability reaches the threshold; the confidence is the chosen class's probability. |
| PredictOne.ConfidenceBounds | backend/model/runtime/predict_one.py:79-80 | For a probability, the confidence is within [0, 1], and at threshold 0.5 it is at least 0.5. |
| PredictOne.ThresholdMonotonic | backend/model/runtime/predict_one.py:79 | Raising the threshold never makes a row a candidate. |
| PredictOne.PredictRow | backend/model/runtime/predict_one.py:43-89 | A loading error propagates, and a non-dict row is a `TypeError`. For loaded artifacts and a dict row, the call succeeds exactly when the model's output for the preprocessed row has the class-1 column, and then gives the thresholded decision on it; otherwise it is an `IndexError`. |
| ParseLabel.Strip | backend/model/test/test.py:35 | `strip()` returns a contiguous slice of the input with no whitespace at either end, and everything cut off before and after it is whitespace. |
| ParseLabel.StripIdempotent | backend/model/test/test.py:35 | Stripping twice is stripping once. |
| ParseLabel.Upper | backend/model/test/test.py:35 | ASCII uppercasing, character by character. |
| ParseLabel.IntTruth | backend/model/test/test.py:42 | `bool(int(x))` fails for NaN and infinities, and is otherwise whether \|x\| ≥ 1. |
| ParseLabel.ParseLabel | backend/model/test/test.py:29-51 | "CANDIDATE" is true and "CONFIRMED" false after stripping and uppercasing. Other strings go through `float`, then `int`, with `None` on failure. Integers and booleans are their truth value, floats the truth of their integer part, and anything else `None`. |
| ParseLabel.StripUnpadded | backend/model/test/test.py:35 | A string with no whitespace at either end is its own strip. |
| ParseLabel.PaddedCandidate | backend/model/test/test.py:35-37 | " candidate\n" is a candidate. |
| ParseLabel.MixedCaseConfirmed | backend/model/test/test.py:35-39 | "Confirmed" is not a candidate. |
| ParseLabel.NumericHalf | backend/model/test/test.py:41-42 | "0.5" reads as not a candidate, because `int` truncates it to 0. |
| ParseLabel.NumericTwo | backend/model/test/test.py:41-42 | "2" reads as a candidate. |

## Left out

- Rendering is outside the model. That covers Three.js scene construction and disposal, lights, meshes, resizing and the mouse-to-ray projection (the ray hit is a parameter). It also covers trigonometric positions, the star's pulse and rotation, and the twinkling background. Orbit opacity is recorded as `Pulsing` rather than computed.
- Scene.SceneManager.UpdateSystems: systems that are kept keep their old records. An updated record for an already drawn id is not re-read, as in the source. The unused index argument of `getPlanetDefaults` and the system positions (always the origin) are omitted.
- SceneRules.FreshDefaults: the hash sums character codes of `seq<char>`. For characters outside the Basic Multilingual Plane, JavaScript's UTF-16 code units would differ.
- The React re-render that follows `onPlanetFocus(null)` during reconciliation is not modelled. The model reports it as `clearFocus`, and `Scene.PropsChanged` applies it to the root state.
- Asynchronous delays, fetch errors and the `finally` of `loadPlanets` are not modelled: fetches complete immediately and cannot fail.
- PlanetSelector.ParsedNumber: infinite `parseFloat` results are not represented.
- The clock-derived custom id is a parameter. Two submissions in the same millisecond-modulo window can collide; the selection invariant is stated for a fresh id.
- Lowercasing and uppercasing cover ASCII letters only. JavaScript `toLowerCase` and Python `upper()` apply full Unicode case mapping.
- LifeformBackend and LifeformGame: `get_size` is floating-point numerics (fractional powers and a logarithm). Only its final `max(size, 0.1)` is modelled, through `PyValues.Max`; diet and communication take the size as an argument.
- LifeformBackend.ColorOf: for `-1` insolation, a division of Python floats raises `ZeroDivisionError`. With numpy scalars it would produce infinity instead.
- `__str__` of both lifeforms is not modelled, nor the module-level script code that reads the CSV file and prints a creature.
- The backend lifeform's trivial setters are not modelled: `set_size`, `set_color`, `set_communication` and `set_diet` write attributes nothing reads. The same goes for the unused constructor arguments `size`, `color`, `communication` and `diet`.
- The game lifeform's `get_base_size` returns the bound method itself, not a value. It is not modelled.
- The game formatter reads attributes (`lifeform.lifeform`, `strength`, …) that the game's `Lifeform` class does not define. The model takes those attribute values as given; it does not model the `AttributeError` that the pairing would raise.
- The formatters' `str()` of arbitrary values and of floats is the parameter `show`. Writing the JSON file is not modelled.
- PredictOne: reading files, `joblib`, the `lru_cache` around loading, and the script entry point are not modelled. The scaler and the model are the parameters `transform` and `predictProba`.
- ParseLabel: `float()` of text is the parameter `parseFloat`. The CSV reading and the evaluation loop of `test.py` are not modelled.
