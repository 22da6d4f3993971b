# Photo viewer panel and the "points" walkthrough chapter

This project models two parts of a browser-based map editor.

**The photo viewer panel** is `modules/ui/photoviewer.js`. It has three parts:

- **Resize handles.** There are three: the corner handle, the side handle and the top handle. Each is a small state machine (`ResizeListener`). Pointer down captures the pointer and the starting geometry, and registers move/up/cancel listeners on the window. A move from the captured pointer resizes the panel, clamped between a minimum and the map size. A release from the captured pointer removes every listener registered under the handle's event name.
- **Map-resize rule** (`Panel.OnMapResize`). When the map shrinks, the panel is shrunk componentwise until it fits: no wider than the map, and no taller than the map less a 90 px margin.
- **"Set photo from viewer" button.** This covers:
  - the rule that shows or removes the button (mode, layer, and the service named in the URL hash);
  - its three-way classification: already set, too far, or enabled;
  - the fold behind its click, which writes `mapillary = <image id>` into the tags of every selected feature.

**The "points" chapter of the walkthrough** is `modules/ui/intro/point.js`. It is modelled twice:

- `IntroPointSpec` models it as pure step functions over a `Walkthrough` value. The value holds:
  - the intro listener table;
  - the `timeouts` array and the window's pending timers;
  - the tooltip last revealed;
  - the count of 'done' dispatches.
- `IntroPoint.Chapter` is a class with those fields. Each of its methods rewrites them in place, and each is proved to take `State()` where the matching function says.

Events from the editor (mode entered or exited, map moved or redrawn, history changed, key released, timer fired) are delivered by `Step`. `Step` calls whatever handler the table holds for that event. The chapter's properties are proved about the functions:

- its invariant;
- the mode-id guards;
- the fallbacks from the delete step;
- what `exit` clears (see "## Findings" for the one listener it misses);
- that every state of the intended walkthrough waits for the one event that moves it on;
- that the intended walkthrough ends with 'done' dispatched once.

Lemmas `HappyEnterAdded` … `HappyPointDeleted` prove the individual steps of `HappyPathIsDone`. They are helpers of the phase lemmas listed below.

Browser layout, CSS padding, the imagery service, geodesic distance and the preset list's contents are parameters of the operations that read them.

## Model

| member | source | states |
|---|---|---|
| `PhotoViewer.Clamp` | modules/ui/photoviewer.js:225-227 | the result is never below `min`; it is at most `max` when `min <= max`; it is `min` when the bounds cross; it is `num` inside the range, `min` below it and `max` above it |
| `PhotoViewer.SettingsOf` | modules/ui/photoviewer.js:192-195 | the axis flags are kept; a minimum that is omitted or 0 becomes 240 (height) or 320 (width); any other given minimum is kept |
| `PhotoViewer.HandleSettings` | modules/ui/photoviewer.js:40-65 | the side handle resizes only the width, the top handle only the height, the corner handle both; all use the default minimums |
| `PhotoViewer.Resized` | modules/ui/photoviewer.js:208-219 | an axis that is not resized keeps its size; width and height stay within their minimum and the map (less 90 for height), or equal the minimum when the map is smaller; within bounds, the width follows the pointer rightwards and the height follows it upwards exactly; a drag below the minimum gives exactly the minimum, and one past the map bound gives exactly that bound |
| `PhotoViewer.ResizedMonotone` | modules/ui/photoviewer.js:210-219 | moving the pointer right never narrows the panel, and moving it down never makes it taller |
| `PhotoViewer.ResizedAtGrip` | modules/ui/photoviewer.js:210-219 | a pointer back at the drag's start restores the starting size when that size was within bounds |
| `PhotoViewer.ResizedFits` | modules/ui/photoviewer.js:216-219 | after a corner-handle move the panel fits the map, so the map-resize rule leaves it alone, provided the minimums fit |
| `PhotoViewer.ShrinkToFit` | modules/ui/photoviewer.js:271-275 | no change exactly when the panel fits; otherwise the new size fits, is no larger than the panel, and keeps any dimension that already fit |
| `PhotoViewer.ShrinkToFitIdempotent` | modules/ui/photoviewer.js:271-275 | shrinking an already shrunk panel changes nothing |
| `PhotoViewer.ShrinkToFitIsLargest` | modules/ui/photoviewer.js:272-275 | every size that fits and lies within the panel lies within the shrunk size (the componentwise minimum is the largest fitting size) |
| `PhotoViewer.Panel.OnMapResize` | modules/ui/photoviewer.js:264-283 | a panel that fits keeps its size and dispatches nothing; otherwise it takes the shrunk size and dispatches one 'resize' event carrying that size less padding; afterwards the panel fits |
| `PhotoViewer.Lookup` | modules/ui/photoviewer.js:152-153 | succeeds exactly when every selected id is in the graph, and then yields the entities in selection order |
| `PhotoViewer.SetPhotoTag` | modules/ui/photoviewer.js:97-102 | succeeds exactly when every id is in the graph; the graph keeps its ids; each selected entity gets its `mapillary` tag set to the image id; every other entity is untouched |
| `PhotoViewer.SetPhotoTagKeepsOtherTags` | modules/ui/photoviewer.js:99-100 | every tag other than `mapillary` is present, with its value, exactly as before, and the entity's position is kept |
| `PhotoViewer.AllTagged` | modules/ui/photoviewer.js:155-156 | holds exactly when every entity's `mapillary` tag equals the active image's id (both may be absent); vacuous for no entities |
| `PhotoViewer.AllFar` | modules/ui/photoviewer.js:158-159 | holds exactly when every entity's centre is more than 100 from the image |
| `PhotoViewer.Classify` | modules/ui/photoviewer.js:148-164 | already set exactly when every tag equals the active id (always for an empty selection); too far exactly when not already set, an image is active, and every entity is more than 100 away; enabled otherwise; never too far without an image |
| `PhotoViewer.EnabledWithoutImage` | modules/ui/photoviewer.js:155-162 | with no active image, any selection holding a feature that has a `mapillary` tag makes the button enabled |
| `PhotoViewer.SetPhotoTagThenAlreadySet` | modules/ui/photoviewer.js:83-88 | after the click's tag update the selection classifies as already set, matching the `already_set` state the click gives the button |
| `PhotoViewer.FirstSegment` | modules/ui/photoviewer.js:119-120 | the result is a prefix of the text with no slash in it, ending at the text's end or just before its first slash |
| `PhotoViewer.FirstSegmentUnique` | modules/ui/photoviewer.js:119-120 | that description has only one solution, so it is the text before the first slash |
| `PhotoViewer.MapillarySegment` | modules/ui/photoviewer.js:119-120 | the text before the first slash is `mapillary` exactly for `mapillary` itself and for texts starting with `mapillary/` |
| `PhotoViewer.ServiceId` | modules/ui/photoviewer.js:115-123 | undefined exactly when the hash has no `photo` parameter or it is empty; otherwise the text of `photo` before its first slash; it is `mapillary` exactly when `photo` is `mapillary` or starts with `mapillary/` |
| `PhotoViewer.ShowButton` | modules/ui/photoviewer.js:78 | the button is shown exactly in select mode with the Mapillary layer enabled and a hash `photo` parameter equal to `mapillary` or starting with `mapillary/` |
| `PhotoViewer.SubtractPadding` | modules/ui/photoviewer.js:285-290 | the reported width plus the left and right padding, and the reported height plus the top and bottom padding, give back the outer size |
| `PhotoViewer.Panel.UpdateSetPhotoButton` | modules/ui/photoviewer.js:76-91 | nothing happens while the viewer is closed; outside the show condition the button is removed; otherwise it is created if missing and takes the classification of the selection; if a selected id is missing, the lookup throws and the button stays as it was |
| `PhotoViewer.Panel.ClickSetPhotoButton` | modules/ui/photoviewer.js:83-102 | only an enabled button reacts; the edit is the tag fold with the active image's id; the click aborts when no image is active and something is selected; a completed edit leaves the button already set |
| `PhotoViewer.KeyOf` | modules/ui/photoviewer.js:244 | an event reads as 'mouse' exactly when its pointer id is absent or 0; otherwise it is keyed by that id |
| `PhotoViewer.ResizeListener.constructor` | modules/ui/photoviewer.js:190-200 | the listener keeps its target and event name, uses the 'pointer' prefix when pointer events exist and 'mouse' otherwise, fills in the option defaults, and has no pointer captured |
| `PhotoViewer.ResizeListener.InitResize` | modules/ui/photoviewer.js:240-260 | captures the pointer key, the pointer position and the panel's size; registers move as a resize and up (and, with pointer events, pointercancel) as a stop under the event name; leaves every other window listener as it was |
| `PhotoViewer.ResizeListener.StartResize` | modules/ui/photoviewer.js:202-223 | an event from another pointer changes nothing; otherwise the panel takes exactly the `Resized` size and one 'resize' event is dispatched with that size less padding |
| `PhotoViewer.ResizeListener.StopResize` | modules/ui/photoviewer.js:229-238 | an event from another pointer changes nothing; otherwise every window listener with the event name is removed and all others are kept |
| `PhotoViewer.Drag` | modules/ui/photoviewer.js:190-261 | one press, move and release by one pointer leaves the panel at the size the move asks for and none of the drag's listeners registered |
| `IntroPointSpec.Initial` | modules/ui/intro/point.js:9-11 | the chapter starts with no listeners and no pending timers, and satisfies the invariant |
| `IntroPointSpec.Schedule` | modules/ui/intro/point.js:19-21 | a new timer with the task and delay is pending under a fresh id, and that id is pushed onto `timeouts`; nothing else changes; the invariant is kept |
| `IntroPointSpec.AddPoint` | modules/ui/intro/point.js:30-41 | shows the add tip and binds 'enter' to placePoint; the invariant is kept |
| `IntroPointSpec.PlacePoint` | modules/ui/intro/point.js:44-55 | any mode other than 'add-point' changes nothing; 'add-point' binds 'enter' to enterSelect and both map events to re-reveal the place tip |
| `IntroPointSpec.EnterSelect` | modules/ui/intro/point.js:58-68 | any mode other than 'select' changes nothing; 'select' unbinds both map events and 'enter', and schedules the search tip at 500 ms |
| `IntroPointSpec.ShowSearchTip` | modules/ui/intro/point.js:63-67 | shows the search tip and binds keyup on the search input to keySearch |
| `IntroPointSpec.KeySearch` | modules/ui/intro/point.js:71-80 | nothing happens unless the cafe preset is listed first; then the choose tip shows, the one-shot history listener is bound to selectedPreset, keydown is cancelled and keyup is unbound |
| `IntroPointSpec.SelectedPreset` | modules/ui/intro/point.js:83-89 | schedules the describe tip at 400 ms; the listeners are unchanged |
| `IntroPointSpec.ShowDescribeTip` | modules/ui/intro/point.js:84-88 | shows the describe tip, binds 'change' to closeEditor and 'exit' to selectPoint |
| `IntroPointSpec.CloseEditor` | modules/ui/intro/point.js:92-97 | unbinds keydown and 'change', and shows the close tip |
| `IntroPointSpec.SelectPoint` | modules/ui/intro/point.js:100-112 | unbinds 'exit' and 'change', binds 'enter' to enterReselect and both map events to re-reveal the reselect tip |
| `IntroPointSpec.EnterReselect` | modules/ui/intro/point.js:115-125 | any mode other than 'select' changes nothing; 'select' unbinds both map events and 'enter', and schedules the fix-name tip at 500 ms |
| `IntroPointSpec.ShowFixNameTip` | modules/ui/intro/point.js:120-124 | shows the fix-name tip and binds 'exit' to deletePoint |
| `IntroPointSpec.DeletePoint` | modules/ui/intro/point.js:128-139 | unbinds 'exit', binds 'enter' to enterDelete and both map events to re-reveal the right-click tip |
| `IntroPointSpec.EnterDelete` | modules/ui/intro/point.js:142-161 | any mode other than 'select' changes nothing; 'select' binds 'exit' and both map events to deletePoint and 'change' to deleted, unbinds 'enter', and schedules the delete tip at 300 ms |
| `IntroPointSpec.ShowDeleteTip` | modules/ui/intro/point.js:150-160 | without a delete item in the menu it is deletePoint; otherwise it shows the delete tip |
| `IntroPointSpec.Deleted` | modules/ui/intro/point.js:164-168 | 'done' is dispatched once more exactly when the change deleted something; nothing else changes |
| `IntroPointSpec.Enter` | modules/ui/intro/point.js:171-175 | the history is reset once more and the chapter is at addPoint |
| `IntroPointSpec.ClearTimeouts` | modules/ui/intro/point.js:179 | a timer stays pending only if its id is not in `timeouts`, so under the invariant none does; `timeouts` itself and the next id are kept |
| `IntroPointSpec.ExitAsWritten` | modules/ui/intro/point.js:178-187 | as written: the timeouts are cleared and enter, exit, move, drawn, change, keyup and keydown are unbound; every other slot keeps its handler, so the one-shot listener stays bound |
| `IntroPointSpec.RestartAsWritten` | modules/ui/intro/point.js:190-193 | as written: only 'enter' and the one-shot listener can remain bound, and the one-shot listener remains exactly when it was bound before |
| `IntroPointSpec.Exit` | modules/ui/intro/point.js:178-187 | as intended: the timeouts are cleared (none stay pending under the invariant) and no intro listener stays bound, the one-shot one included |
| `IntroPointSpec.Restart` | modules/ui/intro/point.js:190-193 | after exit then enter, no timers are pending, only 'enter' is bound (to placePoint), the add tip shows, and 'done' is not dispatched |
| `IntroPointSpec.ModeEntered` | modules/ui/intro/point.js:40-148 | 'enter' with nothing bound, or with a mode other than 'add-point' or 'select', changes nothing; it never dispatches 'done' and schedules at most one timer; the invariant is kept |
| `IntroPointSpec.ModeExited` | modules/ui/intro/point.js:87-146 | 'exit' with nothing bound changes nothing; the bound handler unbinds 'exit' itself; timers and 'done' are untouched; the invariant is kept |
| `IntroPointSpec.MapEvent` | modules/ui/intro/point.js:51-147 | 'move' or 'drawn' with nothing bound changes nothing; a re-reveal closure leaves the listeners as they are; timers and 'done' are untouched; the invariant is kept |
| `IntroPointSpec.HistoryChangedTo` | modules/ui/intro/point.js:75-148 | a change with no history listener bound changes nothing; afterwards the one-shot listener is gone; the invariant is kept |
| `IntroPointSpec.SearchKeyUpped` | modules/ui/intro/point.js:66-78 | a key released while keyup is unbound changes nothing; timers and 'done' are untouched; the invariant is kept |
| `IntroPointSpec.TimerFired` | modules/ui/intro/point.js:19-160 | a timer that is not pending does nothing; a pending one is spent, so it never runs twice; `timeouts` and the next id are kept; the invariant is kept |
| `IntroPointSpec.Step` | modules/ui/intro/point.js:30-168 | delivering any event to the bound handler keeps the invariant: each slot holds only a handler the chapter binds there, and pending timers are recorded in `timeouts` |
| `IntroPointSpec.RunValid` | modules/ui/intro/point.js:30-168 | every sequence of events keeps the invariant |
| `IntroPointSpec.ExitAfterRun` | modules/ui/intro/point.js:178-187 | after entering and any events, exit leaves no timer pending and no listener bound |
| `IntroPointSpec.EnterDeleteFallsBack` | modules/ui/intro/point.js:146-154 | after enterDelete, an exit, a map move, a redraw, or the delete timer firing with no delete item in the menu each lead back to deletePoint |
| `IntroPointSpec.DoneExactlyOnDeletion` | modules/ui/intro/point.js:164-168 | a history change dispatches 'done' at most once, and does so exactly when 'change' is bound to deleted and the change deleted something |
| `IntroPointSpec.HistoryOrderIrrelevant` | modules/ui/intro/point.js:75-148 | in every valid state, running the one-shot listener first or the 'change.intro' handler first gives the same result |
| `IntroPointSpec.RestartAsWrittenLeaksOnce` | modules/ui/intro/point.js:75-193 | as written: after a restart from the choose step, adding the point and the 400 ms timer bring up the describe tip with 'exit' bound to selectPoint, while 'enter' still waits for select |
| `IntroPointSpec.RestartIgnoresStaleChange` | modules/ui/intro/point.js:178-193 | as intended: after that restart the same events leave the chapter at placePoint, with only the placePoint listeners bound and no timer pending |
| `IntroPointSpec.RestartThenChangeDoesNothing` | modules/ui/intro/point.js:178-193 | as intended: after a restart from any valid state, a history change changes nothing |
| `IntroPointSpec.AddedWaitsForAddPoint` | modules/ui/intro/point.js:40-46 | at the start every event but entering 'add-point' mode leaves the chapter as it is |
| `IntroPointSpec.PlacingWaitsForSelect` | modules/ui/intro/point.js:46-59 | while the place tip shows, every event but entering 'select' mode leaves the chapter as it is; map moves only re-reveal the same tip |
| `IntroPointSpec.SelectedWaitsForSearchTimer` | modules/ui/intro/point.js:63-67 | after selecting, only the search timer moves the chapter on |
| `IntroPointSpec.SearchingWaitsForCafe` | modules/ui/intro/point.js:71-79 | while the search tip shows, every event but a key that lists the cafe first leaves the chapter as it is |
| `IntroPointSpec.ChosenWaitsForChange` | modules/ui/intro/point.js:75-84 | while the choose tip shows, only a history change moves the chapter on, to the describe timer; a key press is only cancelled |
| `IntroPointSpec.PresetSetWaitsForDescribeTimer` | modules/ui/intro/point.js:84-88 | once the preset is chosen, only the describe timer moves the chapter on |
| `IntroPointSpec.DescribingWaitsForChangeOrExit` | modules/ui/intro/point.js:86-103 | while the describe tip shows, a history change goes to the close tip and leaving select mode goes to selectPoint; nothing else changes anything |
| `IntroPointSpec.ClosedWaitsForExit` | modules/ui/intro/point.js:100-111 | once the editor is closed, every event but leaving select mode leaves the chapter as it is, and that one goes to the reselect step |
| `IntroPointSpec.ReselectingWaitsForSelect` | modules/ui/intro/point.js:103-118 | while the reselect tip shows, only entering 'select' mode moves the chapter on |
| `IntroPointSpec.ReselectedWaitsForFixNameTimer` | modules/ui/intro/point.js:120-124 | after reselecting, only the fix-name timer moves the chapter on |
| `IntroPointSpec.FixingNameWaitsForExit` | modules/ui/intro/point.js:123-130 | while the fix-name tip shows, only leaving select mode moves the chapter on, to deletePoint |
| `IntroPointSpec.RightClickingWaitsForSelect` | modules/ui/intro/point.js:130-145 | while the right-click tip shows, only entering 'select' mode moves the chapter on, to enterDelete |
| `IntroPointSpec.DeletingWaitsForDelete` | modules/ui/intro/point.js:142-168 | after enterDelete, leaving select mode or moving the map starts deletePoint over; a deletion dispatches 'done'; the delete timer shows the delete tip, or starts deletePoint over without a delete item; nothing else changes anything |
| `IntroPointSpec.DeleteShownWaitsForDelete` | modules/ui/intro/point.js:146-168 | while the delete tip shows, a deletion finishes the chapter, leaving select mode or moving the map starts deletePoint over, and nothing else changes anything |
| `IntroPointSpec.HappyPlacePhase` | modules/ui/intro/point.js:40-61 | addPoint, then 'add-point' mode, then 'select' mode reach the state with the search tip scheduled |
| `IntroPointSpec.HappySearchPhase` | modules/ui/intro/point.js:63-79 | the search timer, a key without the cafe, then one with it reach the choose tip |
| `IntroPointSpec.HappyDescribePhase` | modules/ui/intro/point.js:83-97 | the preset change, the describe timer, then a change reach the close tip |
| `IntroPointSpec.HappyReselectPhase` | modules/ui/intro/point.js:100-124 | leaving select mode, reselecting, then the fix-name timer reach the fix-name tip |
| `IntroPointSpec.HappyDeletePhase` | modules/ui/intro/point.js:128-168 | leaving select mode, selecting, the delete timer, then a deletion reach 'done' |
| `IntroPointSpec.HappyPathIsDone` | modules/ui/intro/point.js:30-175 | the walkthrough followed as intended from `chapter.enter` dispatches 'done' exactly once and ends at the delete tip |
| `IntroPoint.Chapter.constructor` | modules/ui/intro/point.js:9-11 | the new chapter's state is the initial one |
| `IntroPoint.Chapter.Timeout` | modules/ui/intro/point.js:19-21 | the fields move as `Schedule` says |
| `IntroPoint.Chapter.AddPoint` | modules/ui/intro/point.js:30-41 | the fields move as `IntroPointSpec.AddPoint` says |
| `IntroPoint.Chapter.PlacePoint` | modules/ui/intro/point.js:44-55 | the fields move as `IntroPointSpec.PlacePoint` says |
| `IntroPoint.Chapter.EnterSelect` | modules/ui/intro/point.js:58-68 | the fields move as `IntroPointSpec.EnterSelect` says |
| `IntroPoint.Chapter.ShowSearchTip` | modules/ui/intro/point.js:63-67 | the fields move as `IntroPointSpec.ShowSearchTip` says |
| `IntroPoint.Chapter.KeySearch` | modules/ui/intro/point.js:71-80 | the fields move as `IntroPointSpec.KeySearch` says |
| `IntroPoint.Chapter.SelectedPreset` | modules/ui/intro/point.js:83-89 | the fields move as `IntroPointSpec.SelectedPreset` says |
| `IntroPoint.Chapter.ShowDescribeTip` | modules/ui/intro/point.js:84-88 | the fields move as `IntroPointSpec.ShowDescribeTip` says |
| `IntroPoint.Chapter.CloseEditor` | modules/ui/intro/point.js:92-97 | the fields move as `IntroPointSpec.CloseEditor` says |
| `IntroPoint.Chapter.SelectPoint` | modules/ui/intro/point.js:100-112 | the fields move as `IntroPointSpec.SelectPoint` says |
| `IntroPoint.Chapter.EnterReselect` | modules/ui/intro/point.js:115-125 | the fields move as `IntroPointSpec.EnterReselect` says |
| `IntroPoint.Chapter.ShowFixNameTip` | modules/ui/intro/point.js:120-124 | the fields move as `IntroPointSpec.ShowFixNameTip` says |
| `IntroPoint.Chapter.DeletePoint` | modules/ui/intro/point.js:128-139 | the fields move as `IntroPointSpec.DeletePoint` says |
| `IntroPoint.Chapter.EnterDelete` | modules/ui/intro/point.js:142-161 | the fields move as `IntroPointSpec.EnterDelete` says |
| `IntroPoint.Chapter.ShowDeleteTip` | modules/ui/intro/point.js:150-160 | the fields move as `IntroPointSpec.ShowDeleteTip` says |
| `IntroPoint.Chapter.Deleted` | modules/ui/intro/point.js:164-168 | the fields move as `IntroPointSpec.Deleted` says |
| `IntroPoint.Chapter.Enter` | modules/ui/intro/point.js:171-175 | the fields move as `IntroPointSpec.Enter` says |
| `IntroPoint.Chapter.Exit` | modules/ui/intro/point.js:178-187 | clearing the ids of `timeouts` one by one and unbinding every intro slot, the one-shot one included, moves the fields as `IntroPointSpec.Exit` says |
| `IntroPoint.Chapter.Restart` | modules/ui/intro/point.js:190-193 | the fields move as `IntroPointSpec.Restart` says |
| `IntroPoint.Chapter.ModeEntered` | modules/ui/intro/point.js:40-148 | delivering 'enter' to the bound handler moves the fields as `IntroPointSpec.ModeEntered` says |
| `IntroPoint.Chapter.ModeExited` | modules/ui/intro/point.js:87-146 | delivering 'exit' to the bound handler moves the fields as `IntroPointSpec.ModeExited` says |
| `IntroPoint.Chapter.MapEvent` | modules/ui/intro/point.js:51-147 | delivering 'move' or 'drawn' to the bound handler moves the fields as `IntroPointSpec.MapEvent` says |
| `IntroPoint.Chapter.HistoryChanged` | modules/ui/intro/point.js:75-148 | running the one-shot listener and then the 'change' handler bound at dispatch moves the fields as `IntroPointSpec.HistoryChangedTo` says |
| `IntroPoint.Chapter.SearchKeyUp` | modules/ui/intro/point.js:66-78 | moves the fields as `IntroPointSpec.SearchKeyUpped` says |
| `IntroPoint.Chapter.TimerFired` | modules/ui/intro/point.js:19-21 | a pending timer is spent and its task runs, as `IntroPointSpec.TimerFired` says |
| `IntroPoint.Chapter.Step` | modules/ui/intro/point.js:30-168 | delivering any event moves the fields as `IntroPointSpec.Step` says |

## Left out

- Rendering is not modelled: DOM and d3 selections, SVG icons, tooltips, the close button, and the `reveal`/`pad` placement of tooltips. A tooltip is reduced to which message it shows.
- The close button's `hideViewer` calls into the imagery services are not modelled. They are foreign calls with no state in these files.
- `isViewerOpen`, `getActiveImage`, the layer's `enabled()`, the mode id and the URL hash are parameters. So are the selected ids and the graph.
- Browser layout is input: `getBoundingClientRect`, the map's `utilGetDimensions` and `dimensions()`, and the parsed CSS padding on each side.
- PhotoViewer.Panel.OnMapResize: the panel's measured outer size (`utilGetDimensions` of the panel) is taken to be its styled width and height. "Afterwards the panel fits" rests on that, and so does reading `ResizedFits` as a statement about the measured panel.
- PhotoViewer.ResizeListener.StartResize: the size reported with 'resize' is the styled width and height less padding. The source measures the panel again, and the model takes that measurement to be the styled size.
- Sizes and pointer coordinates are integers, not floating-point pixels.
- `geoSphericalDistance` is a distance function passed as a parameter. Feature centres (`extent().center()`) are given with each entity.
- `'PointerEvent' in window` is a boolean parameter of each resize listener.
- `preventDefault` and `stopPropagation` are not modelled. They only affect how the browser propagates the event.
- `context.perform` and the history are not modelled. The click returns the edited graph, and `chapter.enter`'s reset to 'initial' is only counted.
- PhotoViewer.Panel.ClickSetPhotoButton: with no active image and a non-empty selection the source throws. The model returns None and then leaves the button as it is.
- The chapter is modelled without timing: a pending timer fires when a `TimerFires` event names its id. Delays are recorded but not enforced.
- Window timer ids are handed out 1, 2, 3, … by the model.
- Localisation `t()`, `utilRebind` and the chapter's title are not modelled.
- The map camera moves in `chapter.enter` (zoom and centre) are not modelled.
- The d3 event plumbing is not modelled. Each listener slot holds at most one handler, as the single `.intro` name gives it. d3 runs the listeners of one event in the order they were registered, which the model does not record. `HistoryChangedTo` runs the one-shot history listener first, then 'change.intro'. `HistoryOrderIrrelevant` proves that the other order gives the same state.
- `utilBindOnce` is not part of this model (`modules/util/bind_once.js`). The model takes it to register the one-shot listener under the name 'change.intro.once' and to unbind it before it runs. That is a different name from 'change.intro', so `chapter.exit` as written does not unbind it. The model keeps it in its own slot and implements the one-shot behaviour inside `HistoryChangedTo`.
- The preset search input's keydown cancel only stops the key press, so a `KeyDown` event leaves the chapter as it is.
- Whether the cafe preset is listed first, and whether the edit menu has a delete item, are parameters of the events that read them.

## Findings

| source | as written | input that shows it | evidently intended | confidence | as-written member | corrected member |
|---|---|---|---|---|---|---|
| modules/ui/intro/point.js:178-187 | `chapter.exit` unbinds 'change.intro' but not the one-shot 'change.intro.once' that keySearch binds (line 75) | reach the choose tip, restart, add a point (a history change), wait 400 ms: the describe tip shows and 'exit' is bound to selectPoint while the chapter waits at placePoint | exit unbinds every intro listener, the one-shot one included | not executed; rests on `utilBindOnce` naming its listener 'change.intro.once', and that file is not part of this model | `IntroPointSpec.ExitAsWritten`, `IntroPointSpec.RestartAsWrittenLeaksOnce` | `IntroPointSpec.Exit`, `IntroPointSpec.RestartIgnoresStaleChange` |

The rest of the model, `IntroPoint.Chapter.Exit` included, uses the corrected `Exit`.
