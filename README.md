# SecureSync pipeline builder and dashboards, modelled in Dafny

SecureSync's web front end has one piece of real logic: the visual DevOps
pipeline builder. Its editor state is a list of components (nodes), a list of
connections (edges), a pending connection, a drag anchor, a canvas offset, a
canvas scale and a simulation flag. Event handlers update that state: add,
drag, connect, delete, configure, zoom, pan, reset, load a template, simulate
and stop.

Around the editor sit smaller pure rules:
- the builder page's save, export-name, import, Run-button, keyboard and wheel rules;
- the SonarQube proxy route, which checks its configuration and normalises security hotspots;
- the vulnerabilities dashboard's filters, severity counts and component-name lookup;
- the alerts dashboard's filters and per-type counts;
- the home page's cost-calculator clamp and annual-savings formula.

This project models all of these and proves properties about the model.

Modules, one file each:

- `Wrappers`: `Option`.
- `Seqs`: `Filter` (JavaScript's `Array.prototype.filter`), subsequences, distinctness, `FindFirst` (`find`).
- `JsText`: the string built-ins the source relies on. These are `trim`, `toUpperCase`/`toLowerCase` (ASCII letters only), `includes`, `replace(/\s+/g, "-")` over ECMAScript white space, and the `||` default of a possibly missing string.
- `PipelineGraph`: the component, connection and template records, and the pure `map`/`filter`/`some` transforms the handlers apply. Its invariants are distinct component ids, connections that point at existing components, distinct (from, to) pairs and distinct connection ids.
- `Geometry`: the pan/zoom transform, pointer conversion, drop placement, and the Bézier curve of a connection and of its preview.
- `Simulation`: which components start, which run next, and when and how a run ends.
- `Templates`: the three built-in templates, each proved loadable and proved to have exactly one source.
- `PipelineEditor`: class `Editor`, the `usePipeline` hook's state with one method per handler. The `forEach` loops of `loadTemplate` are methods with loop invariants.
- `PipelineBuilder`: the page component's own rules.
- `SonarQube`, `Search`, `Vulnerabilities`, `Alerts`, `CostCalculator`: the smaller cores.

Ids come from the clock and `Math.random()` in the source. Here they come from a counter, `nextSerial`, that the editor owns. `Editor.Valid()` says that no id in use has a serial at or above the counter. This is what lets the model *prove* that new ids are fresh instead of assuming it. The scale moves in steps of 0.1, so it is kept as an integer number of tenths in [5, 20]. Positions are exact reals.

Behaviour of the code that the model follows, where a reader might expect otherwise:
- A connection from a component to itself is refused without a message.
- When a run has no source component, the statuses have already been reset to idle before the run is abandoned.
- Releasing the pointer on empty canvas does not clear a pending connection. Only a mouse-up on a component ends it.
- Deleting the component a pending connection starts from does not clear the pending connection. A later mouse-up can then create a connection whose source no longer exists. So `Editor.ConnectionEnd` keeps the attached-connections invariant only when the pending source still exists.
- The connection check only looks at (from, to): two connections between the same components but on different ports are treated as duplicates.
- With the default sliders (cost 5000, team of 10) the calculator shows an annual saving of −648.

## Model

| member | source | states |
|---|---|---|
| JsText.OrDefault | app/pipeline/page.tsx:235-237 | `x \|\| d` for an optional string: a present non-empty value is kept; a missing or empty one gives the default |
| JsText.TrimStart | app/pipeline/page.tsx:1094 | the result is a suffix of the input with no leading white space, and the dropped prefix is all white space |
| JsText.TrimEnd | app/pipeline/page.tsx:1094 | the result is a prefix of the input with no trailing white space, and the dropped suffix is all white space |
| JsText.TrimEmptyIff | app/pipeline/page.tsx:1094 | `trim()` gives "" exactly when every character is white space |
| JsText.ToUpper | app/api/sonarqube/route.ts:68 | same length; each a–z becomes A–Z and every other character is kept |
| JsText.ToLower | app/pipeline/page.tsx:1119 | same length; each A–Z becomes a–z and every other character is kept |
| JsText.LowerHasNoUpper | app/pipeline/page.tsx:1119 | lower-casing a string without white space leaves no white space and no upper-case letter |
| JsText.UpperOfLower | app/dashboard/vulnerabilities/page.tsx:177-178 | upper-casing after lower-casing is the same as upper-casing |
| JsText.UpperTwice | app/api/sonarqube/route.ts:68 | upper-casing is idempotent |
| JsText.LowerTwice | app/dashboard/vulnerabilities/page.tsx:177-178 | lower-casing is idempotent |
| JsText.LowerOfUpper | app/dashboard/alerts/page.tsx:112-113 | lower-casing after upper-casing is the same as lower-casing |
| JsText.Contains | app/api/sonarqube/route.ts:70-71 | `includes` holds exactly when the needle occurs at some position |
| JsText.ContainsEmpty | app/dashboard/alerts/page.tsx:112-113 | every string includes "" |
| JsText.HyphenateWhiteSpace | app/pipeline/page.tsx:1119 | `replace(/\s+/g, "-")`: never longer than the input and contains no white space; the collapse of each run into one "-" is stated by `HyphenateRun` and `HyphenateJoinsWords` |
| JsText.HyphenateIdentity | app/pipeline/page.tsx:1119 | a string without white space is left unchanged |
| JsText.HyphenateCopies | app/pipeline/page.tsx:1119 | a leading non-white-space character is copied and the rest is processed alone |
| JsText.HyphenateKeepsWord | app/pipeline/page.tsx:1119 | a run of non-white-space characters passes through unchanged, and the rest is processed alone |
| JsText.TrimStartRun | app/pipeline/page.tsx:1119 | a white-space run followed by a non-white-space character (or nothing) is dropped whole, so the regular expression's run is maximal |
| JsText.HyphenateRun | app/pipeline/page.tsx:1119 | a maximal white-space run of any length becomes exactly one "-" |
| JsText.HyphenateJoinsWords | app/pipeline/page.tsx:1119 | two words separated by any white-space run come out joined by one "-" |
| JsText.LowerAppend | app/pipeline/page.tsx:1119 | lower-casing distributes over concatenation |
| Seqs.FindFirst | app/dashboard/vulnerabilities/page.tsx:168 | `find`: none exactly when no element satisfies the predicate; otherwise the first position that does |
| PipelineGraph.MoveComponent | app/pipeline/page.tsx:198-205 | same length; exactly the components with the dragged id are moved by (dx, dy), the others are unchanged |
| PipelineGraph.DeleteCascades | app/pipeline/page.tsx:250-255 | no surviving component has the id; no surviving connection touches it; everything else survives in its order; attached connections stay attached |
| PipelineGraph.DeleteKeepsDistinct | app/pipeline/page.tsx:250-263 | both deletions keep component ids, connection ids and (from, to) pairs distinct |
| PipelineGraph.MergeConfig | app/pipeline/page.tsx:386 | `{ ...c.config, ...config }`: the keys are the union, the update's values win, the other values are kept, and a missing config spreads as {} |
| PipelineGraph.MergeConfigIdempotent | app/pipeline/page.tsx:386 | merging the same update twice equals merging it once |
| PipelineGraph.WithConfig | app/pipeline/page.tsx:382-391 | same length; only the components with the id get the merged config |
| PipelineGraph.WithPatch | app/pipeline/page.tsx:394-403 | same length; only the components with the id take the patched name and description |
| PipelineGraph.SameIdsKeepInvariants | app/pipeline/page.tsx:198-205 | a transform that keeps every id in place keeps ids distinct and connections attached |
| PipelineGraph.Bounds | app/pipeline/page.tsx:437-447 | the box contains every component's 150×80 area |
| PipelineGraph.Instantiate | app/pipeline/page.tsx:459-464 | each template component is translated by (dx, dy) and gets the serial base + i; nothing else changes |
| PipelineGraph.IdMapping | app/pipeline/page.tsx:467-470 | every template id is mapped |
| PipelineGraph.IdMappingAt | app/pipeline/page.tsx:467-470 | with distinct template ids, the i-th template id maps to the i-th new id |
| PipelineGraph.Remap | app/pipeline/page.tsx:473-478 | each connection gets a fresh serial and its ends are sent through the mapping; ports and label are kept |
| PipelineGraph.BoundsTranslate | app/pipeline/page.tsx:442-464 | the bounding box of the placed components is the template's box translated by (dx, dy) |
| PipelineGraph.InstantiateKeepsLayout | app/pipeline/page.tsx:459-464 | the distance between any two placed components is their distance in the template |
| PipelineGraph.FreshSerialUnused | app/pipeline/page.tsx:155 | a serial at or above the counter is used by no component |
| PipelineGraph.AppendComponentKeepsInvariants | app/pipeline/page.tsx:167 | appending a component with an unused id keeps ids distinct and connections attached |
| PipelineGraph.SerialAtBoundIsFresh | app/pipeline/page.tsx:227-240 | with every connection serial below the counter, `Generated(counter)` is the id of no connection |
| PipelineGraph.AppendConnectionKeepsIdsDistinct | app/pipeline/page.tsx:227-240 | appending a connection whose id is new keeps connection ids distinct |
| PipelineGraph.AppendConnectionKeepsPairsDistinct | app/pipeline/page.tsx:227-240 | appending a connection whose (from, to) is new keeps pairs distinct |
| PipelineGraph.FilterKeepsSerialsBelow | app/pipeline/page.tsx:252-262 | dropping components or connections keeps every serial below the counter |
| PipelineGraph.LoadKeepsIdsDistinct | app/pipeline/page.tsx:459-480 | the added components' ids are new and pairwise different |
| PipelineGraph.LoadKeepsEdgesClosed | app/pipeline/page.tsx:467-481 | every added connection joins two added components, and the old ones stay attached |
| PipelineGraph.RemappedEnds | app/pipeline/page.tsx:476-477 | each template connection's ends land on the new ids of the template components it joined |
| PipelineGraph.AddedPairIsNew | app/pipeline/page.tsx:473-481 | an added connection's (from, to) differs from every existing connection's |
| PipelineGraph.AddedPairsDiffer | app/pipeline/page.tsx:473-478 | two added connections have different (from, to) pairs |
| PipelineGraph.LoadKeepsConnIdsDistinct | app/pipeline/page.tsx:473-481 | the connections a template adds get ids no existing connection has and distinct from each other |
| PipelineGraph.LoadKeepsPairsDistinct | app/pipeline/page.tsx:473-481 | after loading, the (from, to) pairs are still pairwise distinct |
| PipelineGraph.LoadKeepsSerialsBelow | app/pipeline/page.tsx:459-481 | after loading, every serial is below the counter advanced past the new serials |
| PipelineGraph.PlacedSerialsBelow | app/pipeline/page.tsx:459-464 | with the old serials below `base`, every serial after placing lies below any bound from base + n on |
| PipelineGraph.RemappedSerialsBelow | app/pipeline/page.tsx:473-478 | the added connections' serials and ends lie below the advanced counter |
| Geometry.ScreenRoundTrip | app/pipeline/page.tsx:1556 | canvas-to-screen and screen-to-canvas are inverse to each other |
| Geometry.PointerDeltaIsCanvasDelta | app/pipeline/page.tsx:193-196 | the difference of two converted pointer positions, in x and in y, is the true canvas displacement (client difference divided by the zoom), whatever the pan |
| Geometry.DropPosition | app/pipeline/page.tsx:1429-1442 | placed exactly when the pointer is strictly inside the canvas, and then the grab point (75, 30) is under the pointer |
| Geometry.DropAgreesWithoutZoomOrPan | app/pipeline/page.tsx:1439-1440 | the written formula and the intended one agree at scale 1 or with no pan |
| Geometry.DropAsWrittenMissesPointer | app/pipeline/page.tsx:1439-1440 | at scale 2 with pan (100, 0), a drop at 300 puts the grab point at 200 on screen |
| Geometry.PreviewAsWrittenOffByPan | app/pipeline/page.tsx:272-273 | the stored `mousePosition`, drawn through the canvas transform, is off the pointer by exactly the pan offset |
| Geometry.PointerToModel | app/pipeline/page.tsx:267-280 | the canvas point that the canvas transform draws under the pointer |
| Geometry.ConnectionCurve | app/pipeline/page.tsx:289-298 | starts at (x + 150, y + 40) of the source and ends at (x, y + 40) of the target; control points lie 50 units out horizontally |
| Geometry.CurveTranslates | app/pipeline/page.tsx:289-298 | moving both components by a vector moves all four curve points by it |
| Geometry.Find | app/pipeline/page.tsx:284-285 | `find`: none when no component has the id; otherwise the first component that has it |
| Geometry.RenderConnection | app/pipeline/page.tsx:283-298 | a curve exactly when both ends exist, between the first components with those ids |
| Geometry.PreviewCurve | app/pipeline/page.tsx:353-367 | a preview exactly when the pending source exists; it starts at that component's output port, ends at the pointer, and its control points lie 50 right of the start and 50 left of the end at their heights |
| Geometry.PreviewMatchesConnection | app/pipeline/page.tsx:353-367 | a preview that ends on a target's input port is exactly the curve the new connection is drawn with |
| Geometry.StrokeFor | app/pipeline/page.tsx:300-316 | width 3 exactly while simulating from a running component; the accent colour when not simulating |
| Simulation.ResetStatuses | app/pipeline/page.tsx:497 | same components, every status idle |
| Simulation.IdsOf | app/pipeline/page.tsx:500 | the ids, position by position |
| Simulation.SourceIdsExactly | app/pipeline/page.tsx:500 | `SourceIds`: an id is a source exactly when some component has it and no connection ends at it |
| Simulation.NoSourceWhenAllFed | app/pipeline/page.tsx:500-506 | when every component is fed by some connection there is no source |
| Simulation.MarkRunning | app/pipeline/page.tsx:517 | exactly the components in the frontier become running |
| Simulation.SetStatus | app/pipeline/page.tsx:530-532 | exactly the components with the id take the outcome |
| Simulation.TargetsExactly | app/pipeline/page.tsx:536 | `Targets`: the next frontier holds exactly the targets of the connections leaving the component |
| Simulation.CheckComplete | app/pipeline/page.tsx:553-571 | a run ends exactly when no status is idle or running; it succeeds exactly when, in addition, none is error |
| Simulation.StartMarksExactlySources | app/pipeline/page.tsx:496-509 | after a start, each component is running when it has no incoming connection and idle otherwise |
| Simulation.StartedRunIsPending | app/pipeline/page.tsx:509-517 | a run that has started is not already complete |
| Simulation.StartAsWrittenNeverRuns | app/pipeline/page.tsx:494-514 | with the guard reading the rendered flag, a single source is never marked running and the run never completes |
| Templates.CiCdBasicWellFormed | app/pipeline/page.tsx:750-827 | the basic CI/CD template has components, distinct ids, attached connections and distinct pairs |
| Templates.CiCdBasicSource | app/pipeline/page.tsx:750-827 | its only source is the repository "src-1" |
| Templates.MicroserviceDeployWellFormed | app/pipeline/page.tsx:828-945 | the microservice template is loadable in the same sense |
| Templates.MicroserviceDeploySource | app/pipeline/page.tsx:828-945 | its only source is "src-1" |
| Templates.DatabaseMigrationWellFormed | app/pipeline/page.tsx:946-1042 | the database-migration template is loadable in the same sense |
| Templates.DatabaseMigrationSource | app/pipeline/page.tsx:946-1042 | its only source is "src-1" |
| PipelineEditor.MoveTwice | app/pipeline/page.tsx:198-205 | two moves of one component add up to one move |
| PipelineEditor.DragPathTotal | app/pipeline/page.tsx:189-207 | over any number of drag steps, the component moves by last pointer minus first anchor and the others stay put |
| PipelineEditor.ClampScale | app/pipeline/page.tsx:408 | the result is in [5, 20] tenths; it is the input when the input is in range, otherwise the nearer bound |
| PipelineEditor.TemplateBounds | app/pipeline/page.tsx:437-447 | the `forEach` loop computes `Bounds` of the template components |
| PipelineEditor.TemplateIdMapping | app/pipeline/page.tsx:467-470 | the `forEach` loop builds `IdMapping` |
| PipelineEditor.PlaceTemplate | app/pipeline/page.tsx:455-478 | as many placed components and connections as the template has |
| PipelineEditor.PlaceTemplateCentres | app/pipeline/page.tsx:449-464 | the placed components' bounding box is centred on the visible centre |
| PipelineEditor.LoadKeepsInvariants | app/pipeline/page.tsx:459-481 | appending a placed template keeps the serial bound, distinct component ids, attached connections, distinct pairs and distinct connection ids |
| PipelineEditor.Editor.constructor | app/pipeline/page.tsx:130-140 | empty graph, no pending connection, no drag, offset (0, 0), scale 1, not simulating |
| PipelineEditor.Editor.AddComponent | app/pipeline/page.tsx:146-169 | appends one idle component with a fresh id, ports ["input"]/["output"] and config or {}; nothing else changes |
| PipelineEditor.Editor.DropLibraryItem | app/pipeline/page.tsx:1425-1442 | adds a component exactly when the pointer is inside the canvas, at `DropPosition` |
| PipelineEditor.Editor.DragStart | app/pipeline/page.tsx:172-184 | dragging that component, anchored at the converted pointer |
| PipelineEditor.Editor.DragOver | app/pipeline/page.tsx:187-210 | while dragging, one drag step to the pointer, which becomes the anchor; otherwise nothing |
| PipelineEditor.Editor.MouseMove | app/pipeline/page.tsx:267-280 | the pointer is stored for the preview, then the same step as `DragOver` |
| PipelineEditor.Editor.DragEnd | app/pipeline/page.tsx:213-216 | not dragging, nothing dragged; the rest unchanged |
| PipelineEditor.Editor.ConnectionStart | app/pipeline/page.tsx:219-221 | the pending connection is that component and port |
| PipelineEditor.ConnectKeepsInvariants | app/pipeline/page.tsx:227-240 | the appended connection moves the serial bound by one, has a fresh id, and keeps pairs distinct, connection ids distinct and connections attached |
| PipelineEditor.Editor.ConnectionEnd | app/pipeline/page.tsx:224-247 | no pending, self and duplicate cases are told apart exactly and add nothing; otherwise one connection with ports defaulted to "output"/"input" is appended, with an id no existing connection has; pairs and connection ids stay distinct; the pending connection is cleared in every case |
| PipelineEditor.Editor.DeleteComponent | app/pipeline/page.tsx:250-258 | the component and every connection touching it are removed; the invariants are kept |
| PipelineEditor.Editor.DeleteConnection | app/pipeline/page.tsx:261-264 | the connections with that id are removed; the invariants are kept |
| PipelineEditor.Editor.UpdateConfig | app/pipeline/page.tsx:382-391 | the components become `WithConfig`; the rest is unchanged |
| PipelineEditor.Editor.UpdateComponent | app/pipeline/page.tsx:394-403 | the components become `WithPatch`; the rest is unchanged |
| PipelineEditor.Editor.Zoom | app/pipeline/page.tsx:406-411 | the scale becomes the clamped sum; the rest is unchanged |
| PipelineEditor.Editor.Pan | app/pipeline/page.tsx:414-419 | the offset moves by (dx, dy) without bounds |
| PipelineEditor.Editor.ResetView | app/pipeline/page.tsx:422-425 | offset (0, 0) and scale 1 |
| PipelineEditor.Editor.LoadTemplate | app/pipeline/page.tsx:428-485 | the old graph stays as a prefix of the placed template; the counter moves past the new ids; the invariants are kept |
| PipelineEditor.Editor.Simulate | app/pipeline/page.tsx:488-510 | no components: nothing changes; no source: statuses reset and the run is off; otherwise statuses reset, sources running, run on |
| PipelineEditor.Editor.CompleteNode | app/pipeline/page.tsx:523-548 | outside a run nothing changes; otherwise the outcome is recorded, and after a success the targets run, else the run ends as `CheckComplete` says |
| PipelineEditor.Editor.StopSimulation | app/pipeline/page.tsx:574-578 | the run is off and every status idle |
| PipelineEditor.Editor.ClearCanvas | app/pipeline/page.tsx:1157-1166 | both lists are emptied exactly when the canvas is not empty and the user confirms |
| PipelineEditor.Editor.ImportGraph | app/pipeline/page.tsx:1140-1141 | both lists are replaced; the counter never goes back |
| PipelineBuilder.SavePipeline | app/pipeline/page.tsx:1093-1105 | refused exactly when the name trims to ""; otherwise the name is in the list, the old list is a prefix, and at most one entry is added |
| PipelineBuilder.SaveIdempotent | app/pipeline/page.tsx:1099-1101 | saving the same name twice equals saving it once |
| PipelineBuilder.SaveKeepsNoDuplicates | app/pipeline/page.tsx:1099-1101 | the saved list never holds a name twice |
| PipelineBuilder.InitialSavedDistinct | app/pipeline/page.tsx:1049 | the initial saved list has no duplicates |
| PipelineBuilder.DefaultNameSaves | app/pipeline/page.tsx:1047-1049 | saving the default name appends it to the initial list |
| PipelineBuilder.ExportFileName | app/pipeline/page.tsx:1119 | equals the lower-cased hyphenated name followed by ".json"; hence ends in ".json", at most 5 longer than the name, with no white space and no upper-case letter |
| PipelineBuilder.ExportFileNameOfTwoWords | app/pipeline/page.tsx:1119 | two words separated by any white-space run give the lower-cased words joined by "-" followed by ".json" |
| PipelineBuilder.CheckImport | app/pipeline/page.tsx:1133-1148 | parse failure and missing lists are told apart exactly; an import keeps both lists, takes the file's name or "Imported Pipeline" and its description or "", so its name is never empty |
| PipelineBuilder.ExportImportRoundTrip | app/pipeline/page.tsx:1108-1141 | importing an exported pipeline gives back its graph, description and name (a blank name becomes "Imported Pipeline") |
| PipelineBuilder.RunButton | app/pipeline/page.tsx:1286 | the button starts a run exactly when none is shown |
| PipelineBuilder.KeyActions | app/pipeline/page.tsx:1176-1204 | at most one action; none exactly when no shortcut matches; Delete with a selection deletes it; Ctrl with "=", "-", "0" and "s" gives zoom in, zoom out, reset zoom and save |
| PipelineBuilder.Wheel | app/pipeline/page.tsx:1520-1531 | zooms exactly with Ctrl, out on a downward scroll; otherwise pans against the scroll, horizontally only with Shift |
| SonarQube.DetermineVulnerabilityLevel | app/api/sonarqube/route.ts:67-73 | HIGH exactly when the upper-cased input contains HIGH; MEDIUM exactly when it contains MEDIUM but not HIGH; LOW otherwise |
| SonarQube.LevelIgnoresCase | app/api/sonarqube/route.ts:68 | lower- or upper-casing the input first changes nothing |
| SonarQube.EmptyLevelIsLow | app/api/sonarqube/route.ts:49 | a missing probability, sent as "", is LOW |
| SonarQube.HighInAnyCase | app/api/sonarqube/route.ts:68-70 | "high" and "High" are HIGH |
| SonarQube.LevelNameFixed | app/api/sonarqube/route.ts:67-73 | each returned level name normalises to itself |
| SonarQube.Normalise | app/api/sonarqube/route.ts:46-52 | other fields kept; the level normalised; a missing or empty status becomes TO_REVIEW and a missing or empty category "unknown" |
| SonarQube.NormaliseAll | app/api/sonarqube/route.ts:46 | one normalised hotspot per hotspot, in order |
| SonarQube.NormaliseIdempotent | app/api/sonarqube/route.ts:46-52 | a returned hotspot sent through again comes back unchanged |
| SonarQube.RequestUrl | app/api/sonarqube/route.ts:10-30 | a request is made exactly when the configuration is present, to a URL under the configured base |
| SonarQube.Get | app/api/sonarqube/route.ts:3-64 | 500 "configuration missing" exactly without configuration; an upstream error status is passed on; a 2xx reply without a body holding hotspots gives 500 "processing failed"; success exactly with a body holding hotspots, then paging passed through, hotspots normalised, components defaulting to [] |
| SonarQube.MissingConfigIgnoresReply | app/api/sonarqube/route.ts:10-15 | without configuration the answer does not depend on the upstream, and no request is made |
| SonarQube.ReportFieldsFilled | app/api/sonarqube/route.ts:46-52 | every returned hotspot has a level among HIGH/MEDIUM/LOW and a non-empty status and category |
| Search.MentionsEmpty | app/dashboard/vulnerabilities/page.tsx:177-178 | an empty query matches any text |
| Search.MentionsIgnoresCase | app/dashboard/alerts/page.tsx:112-113 | the search ignores the case of the query and of the text |
| Vulnerabilities.ComponentName | app/dashboard/vulnerabilities/page.tsx:167-169 | the key without data or without a match; otherwise the path of the first component with the key, if non-empty, else the key |
| Vulnerabilities.FilteredVulnerabilities | app/dashboard/vulnerabilities/page.tsx:176-182 | [] without data; otherwise a subsequence of the hotspots holding exactly those that match search, severity and status |
| Vulnerabilities.NoFilterShowsAll | app/dashboard/vulnerabilities/page.tsx:177-181 | an empty query with both filters "all" shows every hotspot |
| Vulnerabilities.SearchIgnoresCase | app/dashboard/vulnerabilities/page.tsx:177-178 | upper-casing the query changes nothing |
| Vulnerabilities.SeverityFilterExact | app/dashboard/vulnerabilities/page.tsx:179 | with a level as severity filter, a hotspot is shown exactly when it has that level and matches search and status |
| Vulnerabilities.LevelCountsAddUp | app/dashboard/vulnerabilities/page.tsx:184-188 | the HIGH, MEDIUM and LOW counts add up to the list's length |
| Vulnerabilities.Counts | app/dashboard/vulnerabilities/page.tsx:184-188 | each count is the number of filtered vulnerabilities at that severity; they add up to the filtered list's length and are 0 without data |
| Alerts.FilterAlerts | app/dashboard/alerts/page.tsx:111-117 | a subsequence of the alerts holding exactly those that match search, type and status; `FilteredAlerts` applies it to the built-in list |
| Alerts.NoFilterShowsAll | app/dashboard/alerts/page.tsx:112-116 | an empty query with both filters "all" shows every alert |
| Alerts.SearchIgnoresCase | app/dashboard/alerts/page.tsx:112-113 | upper-casing the query changes nothing |
| Alerts.TypeFilterExact | app/dashboard/alerts/page.tsx:114 | with a type as filter, an alert is shown exactly when it has that type and matches search and status |
| Alerts.TypeCountsAddUp | app/dashboard/alerts/page.tsx:119-124 | the four per-type counts add up to the list's length |
| Alerts.Counts | app/dashboard/alerts/page.tsx:119-124 | each count is the number of alerts of that type in the whole list; they add up to its length |
| Alerts.OneOfEachType | app/dashboard/alerts/page.tsx:43-84 | `AllAlerts`, the built-in list, has four alerts, one of each type |
| CostCalculator.EstimatedMonthlyCost | page.tsx:741 | always in [5054, 6709]; team size × 500 inside that window, the nearer bound outside |
| CostCalculator.AnnualSavings | page.tsx:747 | a multiple of 12; negative exactly when the cost is below the estimate, zero exactly when equal |
| CostCalculator.EstimateMonotone | page.tsx:741 | a larger team never lowers the estimate |
| CostCalculator.SliderEstimates | page.tsx:710-717 | on the slider, teams up to 10 give 5054, 11 to 13 give size × 500, 14 and more give 6709 |
| CostCalculator.SavingsMonotone | page.tsx:747 | a higher cost or smaller team never lowers the savings |
| CostCalculator.SliderSavingsSign | page.tsx:725-747 | at the lowest cost (1000) the savings are negative; from 7000 up they are positive |
| CostCalculator.DefaultsShowALoss | page.tsx:19-20 | the default inputs are on the sliders and show an estimate of 5054 and savings of −648 |

## Left out

- Rendering, JSX, styling, animation, icons, toasts, the dark-mode toggle, the component-details panel's selection state and the marketing and layout pages: they hold no logic.
- The Gemini route (`app/api/gemini/route.ts`): a prompt and a call into a remote service.
- `fetchVulnerabilities` with its timer-driven retry, the loading and error states of the vulnerabilities page, `app/services/sonarqube.ts` and `app/config/sonarqube.ts`: network I/O. The reply a fetch would get is a parameter of `SonarQube.Get`.
- SonarQube.Get: the Basic-auth header, request options and error logging are not modelled. A `hotspots` value that is present but not an array is not distinguished from a proper list.
- SonarQube.Normalise: a `vulnerabilityProbability` that is not a string (so `toUpperCase` would throw) is not modelled; the field is a string or missing.
- SonarQube.Details: the hotspot fields outside the ones listed (such as `textRange`) are passed through in the source and are not carried here.
- JsText.ToUpper: only ASCII letters change case, not the whole Unicode mapping JavaScript uses. The same holds for JsText.ToLower.
- PipelineGraph.WithPatch: `Partial<Component>` covers only the name and description edits the details panel makes, not arbitrary fields.
- PipelineEditor.Editor.AddComponent: ids are counter serials, not the clock-and-random strings of the source. Their uniqueness is proved rather than left to chance.
- PipelineEditor.Editor.LoadTemplate: the case where the canvas element is missing (nothing happens) is not modelled; the visible width and height are parameters.
- PipelineEditor.Editor.CompleteNode: timers, delays and the random outcome are left out. The outcome is a parameter and each timer firing is one call. Whether a run terminates is not modelled.
- PipelineEditor.Editor.ClearCanvas: the `confirm` dialog becomes the `confirmed` parameter.
- PipelineBuilder.CheckImport: `JSON.parse` and `FileReader` are outside. A parsed file arrives as a `Document`, and a truthy non-array `components` or `connections` is not distinguished.
- PipelineBuilder.KeyActions: the key listener's stale closure, registered with `[showComponentDetails]` only, is not modelled. The dispatch is stated against the current handlers.
- PipelineGraph.Bounds: the contract states that the box contains every component, not that it is the smallest such box. `PipelineEditor.TemplateBounds` is tied to this function exactly.
- Floating point: the scale is integer tenths and positions are exact reals, so rounding in pixel division is not modelled.

## Findings

| source | as written | input that shows it | evidently intended | confidence | as-written member | corrected member |
|---|---|---|---|---|---|---|
| app/pipeline/page.tsx:494-524 | `simulateComponentExecution` returns early unless the `isSimulating` captured at render time is true; `simulatePipeline` is reachable only while it is false and calls it before any re-render | one component, no connections, press Run: the source is never marked running and the run never ends | the guard tests the flag that was just set, so the sources start running | not executed | Simulation.StartAsWrittenNeverRuns | PipelineEditor.Editor.Simulate |
| app/pipeline/page.tsx:1439-1440 | a dropped item is placed at `(pointer − rect) / scale − offset − (75, 30)` | scale 2, pan (100, 0), drop 300 units right of the canvas edge: the grab point appears at 200, not 300 | `(pointer − rect − offset) / scale − (75, 30)`, so the grab point lies under the pointer | not executed | Geometry.DropAsWrittenMissesPointer | Geometry.DropPosition |
| app/pipeline/page.tsx:272-273 | `mousePosition` divides by the scale but ignores the pan, and the preview curve is drawn inside the panned group | any pan offset other than (0, 0): the preview ends away from the pointer by exactly that offset | subtract the offset before dividing, so the preview ends under the pointer | not executed | Geometry.PreviewAsWrittenOffByPan | Geometry.PointerToModel |
