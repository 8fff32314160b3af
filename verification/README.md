# AppRouter, modelled in Dafny

AppRouter is a SwiftUI navigation library. An `AppRouter` registry maps string ids to
routers. There are two kinds of router:

- a stack router (`Router`) holds a navigation stack, a sheet slot and a full-screen slot;
- a tab router (`TabRouter`) holds the selected tab.

Registering a router gives it a back-reference to the registry and a dismiss callback
that unregisters its id. `RoutingView` binds a stack router's fields to the screen.
Whenever a modal slot goes from a route to nothing while its `RoutingView` is on screen,
whether the user closed the modal or code cleared the slot, the view calls that callback
with the closed route's id. The router that was presented for that route then leaves
the registry.

The library also ships debug tooling:

- `RouterDebugger`: a floating button, a dashboard flag and a navigation log, newest
  first and capped at 1000 entries;
- the debug route family `RouterDebugRoute`, whose feature screens (`InlineFeatureView`)
  push, pop, dismiss and present each other on dedicated routers;
- the `NavigationVisualizer` panels: the key hierarchy, one router's history and the
  router analyser;
- `ValidatingRouterView`: a screen that runs a fixed multi-router flow, lists the
  registered keys and keeps an operations log capped at 100 messages.

The model keeps the source's form. Routers, the registry and the views that hold state
are classes whose methods update their fields. The lookups, filters, orderings and
rules are functions, with lemmas stating what they promise.

Files:

- `optional.dfy`: Swift optionals.
- `routes.dfy`: route values.
- `strings.dfy`: the key order used by `sorted()`, `contains`, and decimal rendering.
- `capped_log.dfy`: newest-first capped logs.
- `app_router.dfy`: routers and the registry.
- `routing_view.dfy`: the binding and the dismissal rule.
- `debugger.dfy`: `RouterDebugger`.
- `debug_route.dfy`: the debug route and the feature screen's actions.
- `visualizer.dfy`: the visualiser panels.
- `validating_view.dfy`: `ValidatingRouterView`.

## Model

| member | source | states |
|---|---|---|
| AppRouting.Router.constructor | Sources/AppRouter/Router.swift:19-32 | a new router has an empty stack and no modals, so it is not presenting; its id is the custom id when one is given, otherwise its family's key; it has no callback yet |
| AppRouting.Router.Reset | Sources/AppRouter/ManagedRouter.swift:22-25 | `reset` empties the stack and both modal slots, so the router is not presenting; the registry is not touched |
| AppRouting.Router.Dismiss | Sources/AppRouter/ManagedRouter.swift:27-30 | `dismiss` empties the stack and leaves both modal slots as they were; with a callback, exactly the router's own id leaves the registry; without one, only the stack changes |
| AppRouting.TabRouter.constructor | Sources/AppRouter/TabRouter.swift:19-22 | the selected tab is the argument; the id is the custom id, otherwise the family's key |
| AppRouting.TabRouter.Select | Sources/AppRouter/TabRouter.swift:13 | assigning `selectedTab` sets it to the given tab and changes no other field |
| AppRouting.TabRouter.Dismiss | Sources/AppRouter/ManagedRouter.swift:39-41 | a tab router's `dismiss` changes nothing |
| AppRouting.TabRouter.Reset | Sources/AppRouter/ManagedRouter.swift:43-45 | a tab router's `reset` changes nothing |
| AppRouting.RegisterAllLastWins | Sources/AppRouter/AppRouter.swift:19-30 | after registering routers in order, a key holds the last router registered under it; a key none of them uses keeps its old entry, or stays absent |
| AppRouting.StacksOfConcat | Sources/AppRouter/AppRouter.swift:78 | `compactMap` keeps order: the stack routers of a concatenation are those of each part, one after the other |
| AppRouting.Retain | Sources/AppRouter/AppRouter.swift:82-89 | the map left by `resetAllNavigation` has exactly the old keys that are base-router ids, with their entries unchanged |
| AppRouting.AppRouter.constructor | Sources/AppRouter/AppRouter.swift:19-30 | the main fields are the arguments; the map is the tab router, then each base router, registered in order; every one of them is wired to this registry; every key holds a router with that id |
| AppRouting.AppRouter.RegisterEach | Sources/AppRouter/AppRouter.swift:26-29 | registering routers one by one gives the map of registering them in order; all of them are wired; the id invariant is kept |
| AppRouting.AppRouter.Register | Sources/AppRouter/AppRouter.swift:36-44 | the router is stored under its id, overwriting that key and no other; a lookup of its own type under its id finds it; it gets this registry as its callback target and, for a stack router only, as its back-reference |
| AppRouting.AppRouter.Unregister | Sources/AppRouter/AppRouter.swift:49-51 | exactly the given key is removed, and no lookup of any type finds it afterwards |
| AppRouting.AppRouter.RouterFor | Sources/AppRouter/AppRouter.swift:56-58 | a router is found if and only if the key `customKey ?? T.key` is present and its router has the asked type; it is then the router under that key |
| AppRouting.AppRouter.TabRouterOf | Sources/AppRouter/AppRouter.swift:61-63 | the force cast: the main tab router must be of the asked type, and it is returned |
| AppRouting.AppRouter.BaseRouterAt | Sources/AppRouter/AppRouter.swift:66-69 | a router is found if and only if the index is in range and that base router is a stack router of the asked family; it is then that base router |
| AppRouting.AppRouter.BaseRouterFor | Sources/AppRouter/AppRouter.swift:72-74 | a router is found if and only if the first base router with the key `customKey ?? T.key` as id is a stack router of the family; the router found is that first match, carries the key as id, and no earlier base router has that id |
| AppRouting.AppRouter.BaseRoutersOf | Sources/AppRouter/AppRouter.swift:77-79 | exactly the base routers that are stack routers of the family, at most as many as there are base routers |
| AppRouting.AppRouter.ResetAllNavigation | Sources/AppRouter/AppRouter.swift:82-89 | the map keeps exactly the keys that are base-router ids, with their entries unchanged; the main tab router's key goes unless it is a base-router id |
| AppRouting.AppRouter.ResetNavigation | Sources/AppRouter/AppRouter.swift:93-97 | the stack router under the key is reset (empty stack, no modals); only that router may change and the map never does |
| AppRouting.AppRouter.IsPresentingFor | Sources/AppRouter/AppRouter.swift:114-119 | false for an absent key, true for a tab router, the router's own `isPresenting` for a stack router |
| AppRouting.AppRouter.IsPresentingNow | Sources/AppRouter/AppRouter.swift:100-109 | the loop over the base routers and the search of the map answer true if and only if some base router or some registered router is presenting |
| AppRouting.AppRouter.RegisteredTabKeepsPresenting | Sources/AppRouter/AppRouter.swift:108 | while a tab router is registered, the registry as a whole is presenting |
| AppRouting.AppRouter.DismissTop | Sources/AppRouter/AppRouter.swift:121-125 | as written: the last presented router closes its modals and keeps its stack; `presentedRouters` is unchanged; nothing happens on an empty sequence |
| AppRouting.AppRouter.DismissTopAndPop | Sources/AppRouter/AppRouter.swift:121-125 | as intended: the last presented router closes its modals and is removed from the sequence, which shrinks by one; nothing happens on an empty sequence |
| CappedLog.Prepend | Sources/AppRouter/Debug/RouterDebugger.swift:42-47 | inserting at index 0 and then cutting to the capacity: the new entry is first, the size is min(old size + 1, capacity), and the old entries follow in order |
| CappedLog.PrependAllConcat | Sources/AppRouter/Debug/ValidatingRouterView.swift:294-299 | logging one run of messages and then another is logging their concatenation |
| CappedLog.PrependAllNewestFirst | Sources/AppRouter/Debug/RouterDebugger.swift:42-47 | after any number of insertions, the log is the inserted entries newest first, then the old log, cut to the capacity |
| CappedLog.FullLogEvictsOldest | Sources/AppRouter/Debug/RouterDebugger.swift:45-47 | a full log that receives an entry keeps its size, has the entry first and loses its oldest entry |
| Debugging.RouterDebugger.constructor | Sources/AppRouter/Debug/RouterDebugger.swift:12-21 | both flags are off and the log is empty |
| Debugging.RouterDebugger.EnableDebug | Sources/AppRouter/Debug/RouterDebugger.swift:24-26 | the floating button is shown and nothing else changes |
| Debugging.RouterDebugger.DisableDebug | Sources/AppRouter/Debug/RouterDebugger.swift:29-32 | the floating button and the dashboard are both hidden |
| Debugging.RouterDebugger.AddNavigationLog | Sources/AppRouter/Debug/RouterDebugger.swift:35-48 | the entry with the given type, message and router id is first; the size is min(old size + 1, 1000); the old entries follow in order, the oldest going when full |
| Debugging.RouterDebugger.ClearNavigationLogs | Sources/AppRouter/Debug/RouterDebugger.swift:51-53 | the log is empty |
| Debugging.RouterDebugger.FloatingButtonTapped | Sources/AppRouter/Debug/RouterDebugger.swift:134-138 | `RouterDebugModifier`'s floating button: the dashboard is shown and a debug-route stack router is registered under "routerDebug": the existing one, or else a new one added under that key |
| Debugging.RegisterRouterDebugIfNeeded | Sources/AppRouter/Debug/RouterDebugger.swift:161-172 | an existing debug-route router under "routerDebug" is kept and the map does not change; otherwise a new one, wired and not presenting, replaces whatever held that key |
| Debugging.NavigationLogKeepsNewest | Sources/AppRouter/Debug/RouterDebugger.swift:42-47 | from an empty log, any run of entries leaves the last (at most) 1000 of them, newest first |
| FeatureActions.FeatureRoute | Sources/AppRouter/Debug/RouterDebugRoute.swift:4-18 | a feature route belongs to the debug family and its id is its first component |
| FeatureActions.KindOf | Sources/AppRouter/Debug/RouterDebugRoute.swift:21-31 | a route has a feature kind if and only if it is a debug route |
| FeatureActions.FeatureRouteRoundTrip | Sources/AppRouter/Debug/RouterDebugRoute.swift:6-18 | a debug route rebuilt from its kind, id, previous id and level is the route itself |
| FeatureActions.FeatureRouterIdsOfKindsDiffer | Sources/AppRouter/Debug/RouterDebugRoute.swift:148 | routers made for feature A and for feature B never share an id, whatever the suffixes |
| FeatureActions.FeatureRouterIdInjective | Sources/AppRouter/Debug/RouterDebugRoute.swift:148 | a feature router id determines both its feature and its suffix: two ids are equal only for the same feature and the same suffix |
| FeatureActions.FeatureRouterIdIsFeatureNotDebug | Sources/AppRouter/Debug/RouterDebugRoute.swift:148 | a feature router id whose suffix has no 'g' contains "routerFeature" and not "Debug" |
| FeatureActions.DebugRouterUnder | Sources/AppRouter/Debug/RouterDebugRoute.swift:72 | a router is found if and only if a debug-family stack router is registered under the key; it is then that router |
| FeatureActions.InlineFeatureView.constructor | Sources/AppRouter/Debug/RouterDebugRoute.swift:59-64 | the screen holds the given kind, id, previous id and level |
| FeatureActions.InlineFeatureView.PushToNextLevel | Sources/AppRouter/Debug/RouterDebugRoute.swift:102-123 | below level 5, the screen's own router gets the same kind of route with the same ids one level deeper; at level 5 or without content, nothing changes |
| FeatureActions.InlineFeatureView.PopToPreviousLevel | Sources/AppRouter/Debug/RouterDebugRoute.swift:125-131 | above level 1, the own router goes one route back; otherwise nothing changes |
| FeatureActions.InlineFeatureView.PopToRoot | Sources/AppRouter/Debug/RouterDebugRoute.swift:134-140 | above level 1, the debug router under the previous id, if any, closes both modals and keeps its stack, and its callback's registry loses the id of each modal that was up; when that router's sheet was this screen and its callback is this registry, this screen's router leaves the registry and the content is no longer drawn; otherwise nothing changes |
| FeatureActions.InlineFeatureView.DismissCurrentSheet | Sources/AppRouter/Debug/RouterDebugRoute.swift:174-178 | at any level, the same as "Pop to Root": the previous debug router closes both modals, keeps its stack, and its callback's registry loses the closed modals' ids, so this screen's router leaves the registry when it was that sheet |
| FeatureActions.CloseModalsOf | Sources/AppRouter/RoutingView.swift:54-67 | `dismissPresented()` on a shown router: both slots are cleared, the stack is kept, and the callback's registry loses the id of the old sheet and of the old full-screen route |
| FeatureActions.InlineFeatureView.PresentOtherFeature | Sources/AppRouter/Debug/RouterDebugRoute.swift:147-170 | a new debug router is registered under the other feature's router id before the own router's sheet becomes that feature at level 1, with this screen's id as previous id; the presented route's own screen then finds that router |
| RoutingViews.DismissedRouteId | Sources/AppRouter/RoutingView.swift:54-60 | an id is reported if and only if the slot went from a route to nothing, and it is that route's id |
| RoutingViews.AfterDismissal | Sources/AppRouter/RoutingView.swift:54-67 | no report leaves the map alone; a report removes that key and keeps every other entry |
| RoutingViews.DebugSheetDismissalUnregistersChild | Sources/AppRouter/RoutingView.swift:54-60 | closing a debug-route sheet removes the router registered under that route's id, the one the sheet's screen uses |
| RoutingViews.RoutingView.constructor | Sources/AppRouter/RoutingView.swift:16-20 | the view is bound to the given router |
| RoutingViews.RoutingView.SetRoutes | Sources/AppRouter/RoutingView.swift:21-24 | writing the routes binding writes the router's stack and nothing else |
| RoutingViews.RoutingView.SheetChanged | Sources/AppRouter/RoutingView.swift:54-60 | with a callback, the registry loses exactly the id of a sheet route that went away, and is untouched on any other change |
| RoutingViews.RoutingView.DismissPresented | Sources/AppRouter/RoutingView.swift:54-67 | clearing both slots by code while the view is shown runs both `onChange` rules: the callback's registry loses the old sheet's id and then the old full-screen route's id |
| RoutingViews.RoutingView.FullScreenChanged | Sources/AppRouter/RoutingView.swift:61-67 | the same rule for the full-screen slot |
| RoutingViews.RoutingView.SetPresentingSheet | Sources/AppRouter/RoutingView.swift:25-28 | writing the sheet binding sets the sheet slot, keeps the other two fields, and applies the dismissal rule to the old and new values |
| RoutingViews.RoutingView.SetPresentingFullScreen | Sources/AppRouter/RoutingView.swift:29-32 | the same for the full-screen binding |
| Strings.BelowTotal | Sources/AppRouter/Debug/NavigationVisualizer.swift:56 | any two different keys are ordered one way or the other |
| Strings.SortedOf | Sources/AppRouter/Debug/NavigationVisualizer.swift:56 | `sorted()` of a key set has one element per key |
| Strings.SortedOfSorted | Sources/AppRouter/Debug/NavigationVisualizer.swift:56 | `sorted()` holds exactly the keys of the set, in strictly ascending order |
| Strings.NatToStringRoundTrip | Sources/AppRouter/Debug/ValidatingRouterView.swift:276 | the decimal text of a count reads back as that count |
| Visualizer.RootRouters | Sources/AppRouter/Debug/NavigationVisualizer.swift:48-64 | as nothing counts as presented, the roots are exactly the registry keys, each once, in ascending order |
| Visualizer.ChildRouters | Sources/AppRouter/Debug/NavigationVisualizer.swift:67-72 | the children are exactly the other keys that contain the parent key, in ascending order; the parent is never its own child |
| Visualizer.ChildrenAreLonger | Sources/AppRouter/Debug/NavigationVisualizer.swift:67-72 | a child key is strictly longer than its parent, so the recursive drawing ends |
| Visualizer.NodeRows | Sources/AppRouter/Debug/NavigationVisualizer.swift:75-135 | a node draws its own row first; when expanded, each of its children has a row at the next level, and every later row is a registered key, deeper and longer; when collapsed, only its row |
| Visualizer.ForestRows | Sources/AppRouter/Debug/NavigationVisualizer.swift:129-133 | each sibling has its own row at the siblings' level; every row is a registered key at that level or deeper |
| Visualizer.HierarchyRows | Sources/AppRouter/Debug/NavigationVisualizer.swift:35-37 | every registered key has a row at level 0, and every row is a registered key |
| Visualizer.NodeRowsDescend | Sources/AppRouter/Debug/NavigationVisualizer.swift:75-135 | every row drawn below a node is a descendant: its key contains the node's key |
| Visualizer.ForestRowsDescend | Sources/AppRouter/Debug/NavigationVisualizer.swift:129-133 | when every sibling contains a key, every row drawn for the siblings contains it |
| Visualizer.CollapsedHierarchyIsSortedKeys | Sources/AppRouter/Debug/NavigationVisualizer.swift:35-37 | with nothing expanded, the siblings draw one row each, at level 0, in their order |
| Visualizer.TapExpanded | Sources/AppRouter/Debug/NavigationVisualizer.swift:81-88 | a tap toggles the node's key in the expanded set only when it has children, and no other key changes |
| Visualizer.TapTwiceRestores | Sources/AppRouter/Debug/NavigationVisualizer.swift:81-88 | two taps on the same node restore the expanded set |
| Visualizer.NavigationVisualizer.constructor | Sources/AppRouter/Debug/NavigationVisualizer.swift:5-7 | nothing is selected and nothing is expanded |
| Visualizer.NavigationVisualizer.Refresh | Sources/AppRouter/Debug/NavigationVisualizer.swift:19-23 | refresh clears the selection and the expanded set |
| Visualizer.NavigationVisualizer.TapNode | Sources/AppRouter/Debug/NavigationVisualizer.swift:81-90 | the expanded set follows the tap rule for the node's children in the registry, and the node becomes selected |
| Visualizer.FilteredLogs | Sources/AppRouter/Debug/NavigationVisualizer.swift:179-181 | a router's history holds exactly the log entries of that router, and no more entries than the log |
| Visualizer.FilteredLogsConcat | Sources/AppRouter/Debug/NavigationVisualizer.swift:179-181 | the filter keeps log order: filtering a concatenation concatenates the filtered parts |
| Visualizer.NewestEntryHeadsHistory | Sources/AppRouter/Debug/NavigationVisualizer.swift:179-181 | the entry just added to the navigation log heads its router's history |
| Visualizer.AnalysisNeverEmpty | Sources/AppRouter/Debug/NavigationVisualizer.swift:343-351 | an analysis is never empty; it holds the all-clear if and only if there is no orphan candidate and at most 10 keys, and then nothing else; every other issue is a warning |
| Visualizer.OrphanCandidatesStep | Sources/AppRouter/Debug/NavigationVisualizer.swift:322-331 | going over one more key adds it to the candidates found so far exactly when it is a feature key without "Debug" |
| Visualizer.OrphanWarningsMakeAnalysis | Sources/AppRouter/Debug/NavigationVisualizer.swift:322-351 | one warning per orphan candidate, followed by the size warning or the all-clear, is an analysis of the keys |
| Visualizer.RouterAnalyzerView.constructor | Sources/AppRouter/Debug/NavigationVisualizer.swift:236-237 | no issues, not analysing |
| Visualizer.RouterAnalyzerView.AnalyzeRouters | Sources/AppRouter/Debug/NavigationVisualizer.swift:313-355 | the issues are one warning per orphan candidate among the registry keys, then a warning above 10 keys, or else the all-clear when nothing was found; analysis has ended |
| Validating.ListingHeaderCount | Sources/AppRouter/Debug/ValidatingRouterView.swift:276 | the listing header holds the key count between its fixed parts, and that text reads back as the count |
| Validating.ListingLinesShape | Sources/AppRouter/Debug/ValidatingRouterView.swift:273-281 | a listing has one line per key plus two: the header first, the footer last |
| Validating.ListingKeyLine | Sources/AppRouter/Debug/ValidatingRouterView.swift:277-279 | the line after the header for position i is "- " followed by the i-th key in ascending order |
| Validating.ListingNamesEveryKey | Sources/AppRouter/Debug/ValidatingRouterView.swift:273-281 | every registered key has its line in the listing, and every key line names a registered key |
| Validating.ComplexFlowRegistersBeforeUse | Sources/AppRouter/Debug/ValidatingRouterView.swift:176-253 | each step acts on a router registered before it, and each presented sheet names a router registered before it |
| Validating.FlowRouterIds | Sources/AppRouter/Debug/ValidatingRouterView.swift:177-217 | the two routers of the flow never share an id, and neither takes the debug router's key |
| Validating.FlowRoutersReportedAsOrphans | Sources/AppRouter/Debug/ValidatingRouterView.swift:177-217 | for a base id without 'g', both routers of the flow are ones the analyser reports as potential orphans |
| Validating.ValidatingRouterView.constructor | Sources/AppRouter/Debug/ValidatingRouterView.swift:5-8 | the screen's id is the debug route key; the log is empty and the list is hidden |
| Validating.ValidatingRouterView.AddLog | Sources/AppRouter/Debug/ValidatingRouterView.swift:294-299 | the message is first and the log keeps at most 100 messages, the oldest going |
| Validating.ValidatingRouterView.ListRegisteredRouters | Sources/AppRouter/Debug/ValidatingRouterView.swift:273-281 | the log receives the header with the key count, each key in ascending order, then the footer |
| Validating.ValidatingRouterView.ResetNavigation | Sources/AppRouter/Debug/ValidatingRouterView.swift:284-291 | the registry keeps only base-router ids, the list is hidden, and the remaining keys are listed in the log |
| Validating.ValidatingRouterView.ToggleRoutersList | Sources/AppRouter/Debug/ValidatingRouterView.swift:81-86 | with a debug router, the list flag flips and a message is logged only when the list is now shown; without one, nothing changes |
| Validating.ValidatingRouterView.PresentFeatureSheet | Sources/AppRouter/Debug/ValidatingRouterView.swift:45-78 | with a debug router, a new router is registered under the feature's router id, the debug router's sheet becomes that feature at level 1 with the screen's id as previous id, and the step is logged; without one, nothing changes |
| Validating.ValidatingRouterView.RegisterDebugRouter | Sources/AppRouter/Debug/ValidatingRouterView.swift:148-155 | afterwards a debug router is registered under the screen's id: a new one if there was none, the map unchanged otherwise |
| Validating.ValidatingRouterView.ExecuteComplexFlow | Sources/AppRouter/Debug/ValidatingRouterView.swift:167-268 | without a debug router, only the error is logged; otherwise the eight steps run in script order, leaving two new routers registered under distinct ids, the sheets and stacks the steps build, the nine messages and the listing in the log |
| Validating.ValidatingRouterView.RunComplexFlow | Sources/AppRouter/Debug/ValidatingRouterView.swift:176-253 | the eight steps register A, present A on the debug router, push A to levels 2 and 3, register B, present B on A, push B to levels 2 and 3, and log the eight step messages |
| Validating.ValidatingRouterView.FinishFlow | Sources/AppRouter/Debug/ValidatingRouterView.swift:255-260 | the completion message and then the listing of the registered keys are logged |
| Validating.ValidatingRouterView.LogNext | Sources/AppRouter/Debug/ValidatingRouterView.swift:294-299 | logging the next message of a run extends the logged prefix of that run by one |
| Validating.ValidatingRouterView.RegisterFlowRouter | Sources/AppRouter/Debug/ValidatingRouterView.swift:177-180 | a new, empty debug router is registered under the given id, the step is logged, and the trace of steps grows by that registration |
| Validating.ValidatingRouterView.NavigateAndLog | Sources/AppRouter/Debug/ValidatingRouterView.swift:195-202 | on a router registered under the step's id, the route is pushed on its stack, the step is logged, and the trace grows by that navigation |
| Validating.ValidatingRouterView.PresentAndLog | Sources/AppRouter/Debug/ValidatingRouterView.swift:184-191 | on a router registered under the step's id, and with the sheet's own router registered, the sheet slot becomes the route, the step is logged, and the trace grows by that presentation |
| Validating.ValidatingRouterView.FlowFeatureA | Sources/AppRouter/Debug/ValidatingRouterView.swift:176-213 | steps 1 to 4: A's router is registered, presented on the debug router, and pushed to levels 2 and 3; the trace built by the steps performed is feature A's four steps, and their four messages are logged |
| Validating.ValidatingRouterView.FlowFeatureB | Sources/AppRouter/Debug/ValidatingRouterView.swift:215-253 | steps 5 to 8: B's router is registered, presented on A's router, and pushed to levels 2 and 3; the trace built by the steps performed is the whole script, and its eight step messages are logged |

## Left out

- SwiftUI rendering and styling are not modelled. This covers view bodies, gradients, button styles, and the colours and icons of the feature, severity and log types. They are presentation only.
- The debug dashboard and the registered-routers list view are not modelled. They display keys and logs without logic of their own.
- `Color(hex:)` is not modelled. It is floating-point arithmetic over a Foundation scanner.
- The `DispatchQueue.main.asyncAfter` delays are not modelled. The complex flow, the analyser and the listing after a reset run their steps one after the other, with no other event in between.
- `UUID()` ids and `Date()` timestamps are parameters: a suffix string and an integer. Nothing guarantees that generated ids are unique.
- A log entry's own random identity and the timestamp formatter are not modelled.
- `print` calls, haptic feedback and the debug sheet presentation are not modelled. They are output only.
- Observation, actor isolation and the `[weak self]` capture are not modelled. The dismiss callback is a plain reference to the registry whose `unregister` it calls.
- AppRouting.Router.Navigate, NavigateBack, NavigateToRoot, PresentSheet, PresentFullScreen and DismissPresented belong to a `RoutableObject` extension that is not part of this model. Their contracts are assumed: append to the stack, drop its last route, empty it, fill a modal slot, clear both slots.
- Routers carry one callback slot. `Router.swift` and `TabRouter.swift` declare a closure named `dismiss`, while the protocol asks for `dismissCallback`; the model has a single slot for both.
- A tab router's type key is taken to be the key of its tab family. `TabRoutable.key` is declared but its use for `TabRouter` is not shown.
- Route families are strings: `Screen` stands for a value of any non-debug route family. Swift's generic typing becomes `requires` clauses on navigation and presentation.
- Key ordering is lexicographic by character code. Swift's Unicode-aware string comparison is not modelled.
- Issue titles, descriptions and recommendations are not modelled. An issue keeps its kind, its key or count, and its severity.
- The orphan warnings come out in the dictionary's iteration order, which Swift does not specify. Visualizer.RouterAnalyzerView.AnalyzeRouters states which warnings come out and how many, not their order.
- The "Show Registered Routers" toggle of the feature screen is not modelled. It only shows or hides the list view.
- The typed getters of `AppRouter` (`mainTabRouter`, `mainBaseRouters`) are plain fields, not separate members.
- AppRouting.Router.Reset does not apply the dismissal rule. When the router's `RoutingView` is on screen, clearing its modals also removes their ids from the registry; `reset` does not know whether a view is shown, so the model leaves the registry alone.
- AppRouting.AppRouter.ResetNavigation inherits the same gap from `Router.reset`: the ids of modals closed on a shown router are not removed.
- AppRouting.AppRouter.DismissTop does not apply the dismissal rule to the modals it closes either, nor does AppRouting.AppRouter.DismissTopAndPop.
- AppRouting.Router.constructor starts with no registry back-reference. `Router.swift` does not declare that field, so its initial value is assumed.
- AppRouting.AppRouter.DismissTop follows the code, which discards the result of `dropLast()`, rather than the evident intent of removing the top router; see "Findings".

## Findings

| source | as written | input that shows it | evidently intended | confidence | as-written member | corrected member |
|---|---|---|---|---|---|---|
| Sources/AppRouter/AppRouter.swift:121-125 | `dismissTop` calls `dropLast()` and discards the shortened copy, so `presentedRouters` never shrinks | `presentedRouters == [r1, r2]`: after `dismissTop` it is still `[r1, r2]`, and a second call dismisses `r2` again while `r1` is never reached | the top router is removed, leaving `[r1]` | high, not executed | AppRouting.AppRouter.DismissTop | AppRouting.AppRouter.DismissTopAndPop |
