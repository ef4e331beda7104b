# Synapse call-record analysis — a Dafny model

Synapse is an investigation workbench for telephone operator records.
Analysts drop operator workbooks (Orange-style call-and-SMS workbooks, MTN-style
listing workbooks, or ZIP archives of them) into the browser client. The client
recognises each workbook's layout from its sheet names and extracts the
subscriber and listing rows. From the listings it builds:

- a call network: one node per cleaned phone number, one edge per pair;
- per-link strength scores and classes (primary, secondary, weak);
- a profile of the selected number;
- a location view that groups geolocated records into per-caller paths.

The client also handles locale-prefixed routing, login-guarded pages, a session
store, toast notifications, an activity history and a CSV export. A small
Python back end issues and revokes bearer tokens and serves a graph database
as node/edge JSON.

This project restates that core in Dafny and proves properties of it:

- **Pure logic** (field lookup, parsing, scoring, classification, routing and
  the response formatting) is written as functions. Lemmas state what those
  functions promise.
- **Loops** of the source become methods with loop invariants. Each is proved
  equal to a specification function. Examples: the row aggregation of
  `useNetworkData`, the sheet checks of `validateAndParseWorkbook`, the path
  grouping of the location view, the node scan of `format_graph_response`.
- **Objects updated in place** become classes whose methods state their whole
  new state: the session store, the notification lists, the token blocklist
  of the back end, the canvas selection and the rename form.

Browser, network, clock and library services are parameters of the model:
date parsing, `Math.log`, JWT signing and decoding, password checks and
database lookups. The modules follow the source files:

| module | source |
|---|---|
| `Common`, `Text`, `Rows`, `Sorting` | JavaScript primitives the client relies on (`filter`, `trim`, `indexOf`, `split`/`join`, `sort`, `String(n)`, `parseInt`, spreadsheet rows) |
| `FieldLookup` | the `findFieldValue` copies in five client files |
| `NetworkGraphUtils` | `frontend/src/utils/network-graph-utils.ts` |
| `LinkClassification` | `frontend/src/utils/link-classification.ts` |
| `NetworkData` | `frontend/src/hooks/useNetworkData.ts` |
| `FileUploader` | `frontend/src/components/workbench/FileUploader.tsx` |
| `NetworkGraph`, `FilterPanel`, `NodeDetails`, `IndividualInfo`, `LocationGraph` | the workbench components of the same names |
| `CsvHelper` | `frontend/src/lib/csvHelper.ts` |
| `GraphResponse` | `backend/app/routers/graph.py` |
| `AuthBackend` | `backend/app/dependencies.py`, `backend/app/routers/auth.py` |
| `Middleware` | `frontend/middleware.ts` |
| `LanguageSwitcher` | `frontend/src/components/LanguageSwitcher.tsx` |
| `AuthStore` | `frontend/src/app/store/authStore.ts` |
| `Notifications` | `frontend/src/components/ui/Notification.tsx`, `frontend/src/providers/NotificationProvider.tsx` |
| `HistoryTab` | `frontend/src/components/dashboard/HistoryTab.tsx` |

Where the written description of the system and the code differ, the model
follows the code, and every operation uses the code as written. Where the code
evidently misses its own intent (see "Findings"), a corrected definition stands
beside the written one with the intended property proved; no operation of the
model uses it.

- **Date range in the network view.** `useNetworkData` carries the date range
  but never applies it to nodes.
- **Shared-IMEI layout.** This layout can never be detected, because its
  detector is the standard layout's and the standard layout is tried first.
- **The commented-out `validateAndParseWorkbook`.** An older copy of
  `validateAndParseWorkbook` sits inside a block comment
  (`FileUploader.tsx` lines 168-220) and is not part of the program. The
  model follows the live declaration (lines 113-166), which reports an
  unrecognised workbook with the message "File structure not recognized.".
- **The composite score, `formatDuration`, the hour grid and the location type
  filter.** These differ from what the code evidently intends; see
  "Findings". `calculateLinkStrength` scores with the uncapped temporal part,
  and the location view filters with the `'call'`/`"calls"` comparison.

## Model

| member | source | states |
|---|---|---|
| FieldLookup.FoldedKeyShape | frontend/src/utils/network-graph-utils.ts:21 | The accent-folding key normaliser only produces keys of `[a-z0-9_ ]`, with single spaces and no space at either end |
| FieldLookup.FoldAccentsIdempotent | frontend/src/components/workbench/LocationGraph.tsx:37-66 | Normalising an already normalised column name changes nothing (folding copy) |
| FieldLookup.SpacedKeyShape | frontend/src/components/workbench/FilterPanel.tsx:11-27 | The local normaliser copy produces only `[a-z0-9 ]` keys, with no space at either end |
| FieldLookup.SpaceNonAlnumIdempotent | frontend/src/components/workbench/IndividualInfo.tsx:11-27 | Normalising twice is normalising once (spacing copy) |
| FieldLookup.NormalizedRowEntries | frontend/src/utils/network-graph-utils.ts:19-28 | `normalizedRow` holds a key exactly when some present cell's key normalises to it, and then holds the last such cell (later keys overwrite) |
| FieldLookup.FirstFieldSpec | frontend/src/utils/network-graph-utils.ts:30-37 | The alias scan returns the value of the first alias, in list order, that matches a truthy cell, and nothing when none matches |
| FieldLookup.FirstFieldNonEmpty | frontend/src/utils/link-classification.ts:199-219 | A found value is never the empty string |
| FieldLookup.ZeroIsAbsent | frontend/src/utils/network-graph-utils.ts:18-38 | A cell holding the number 0 is falsy and is never returned |
| FieldLookup.FindFieldValue | frontend/src/utils/network-graph-utils.ts:18-38 | The two loops (build the normalised row, then scan the aliases) compute the lookup specified above, and never yield "" |
| NetworkGraphUtils.CleanPhoneNumber | frontend/src/utils/network-graph-utils.ts:5-10 | A number is kept exactly when at least seven digits or plus signs remain; the result is those characters, in order |
| NetworkGraphUtils.KeepPhoneCharsCounts | frontend/src/utils/network-graph-utils.ts:6 | Every digit and plus sign of the input survives as many times as it occurs |
| NetworkGraphUtils.CleanPhoneNumberIdempotent | frontend/src/utils/network-graph-utils.ts:5-10 | Cleaning a cleaned number gives it back unchanged |
| NetworkGraphUtils.CleanPhoneNumberIgnoresSeparators | frontend/src/utils/network-graph-utils.ts:6 | Removing any separator character from the input does not change the cleaned number |
| NetworkGraphUtils.SmsMarkerIsSms | frontend/src/utils/network-graph-utils.ts:12-16 | Any text containing `SMS` or `sms` is an SMS record |
| NetworkGraphUtils.LongNumberIsSms | frontend/src/utils/network-graph-utils.ts:14-15 | A run of six or more digits reads as a hexadecimal message id, hence as SMS |
| NetworkGraphUtils.HexRunIsSms | frontend/src/utils/network-graph-utils.ts:14-15 | A cell whose trimmed text is a hexadecimal run of at least six is SMS |
| NetworkGraphUtils.TimeMatchAt | frontend/src/utils/network-graph-utils.ts:47 | A match of `(\d+):(\d+)(?::(\d+))?` starts on a digit and has well-formed digit groups |
| NetworkGraphUtils.FirstTimeMatch | frontend/src/utils/network-graph-utils.ts:47 | The regular expression matches at the leftmost position where it can |
| NetworkGraphUtils.FirstDigit | frontend/src/utils/network-graph-utils.ts:53 | `(\d+)` matches at the leftmost digit |
| NetworkGraphUtils.ParseDuration | frontend/src/utils/network-graph-utils.ts:40-58 | A cell is an SMS exactly when it is non-empty and its trimmed text is SMS data, and an SMS lasts 0 seconds |
| NetworkGraphUtils.NoDigitsNoSeconds | frontend/src/utils/network-graph-utils.ts:52-57 | A cell without any digit lasts zero seconds |
| NetworkGraphUtils.TimeTextNotSms | frontend/src/utils/network-graph-utils.ts:12-16 | Digits and colons with a colon somewhere are never SMS data |
| NetworkGraphUtils.ParseNonSms | frontend/src/utils/network-graph-utils.ts:42-57 | A trimmed non-SMS cell is read from its first time match or digit run |
| NetworkGraphUtils.ParseMinutesSeconds | frontend/src/utils/network-graph-utils.ts:47-51 | `"m:s"` reads as 60·m + s seconds, not SMS |
| NetworkGraphUtils.ParseHoursMinutesSeconds | frontend/src/utils/network-graph-utils.ts:47-51 | `"h:m:s"` reads as 3600·h + 60·m + s seconds, not SMS |
| NetworkGraphUtils.ParsePlainSeconds | frontend/src/utils/network-graph-utils.ts:52-55 | A bare number of fewer than six digits is a count of seconds |
| NetworkGraphUtils.EdgeBand | frontend/src/utils/network-graph-utils.ts:60-65 | The colour band is green exactly up to 2 interactions and red exactly above 10 |
| NetworkGraphUtils.EdgeColor | frontend/src/utils/network-graph-utils.ts:60-65 | The colour is one of the four; green exactly up to 2 interactions and red exactly above 10 |
| NetworkGraphUtils.EdgeColorMonotone | frontend/src/utils/network-graph-utils.ts:60-65 | More interactions never give a milder colour |
| NetworkGraphUtils.NodeSize | frontend/src/utils/network-graph-utils.ts:67-69 | Node sizes lie in [12, 60] and follow 8·log + 8 strictly inside that range |
| NetworkGraphUtils.NodeSizeMonotone | frontend/src/utils/network-graph-utils.ts:67-69 | Larger counts never give smaller nodes |
| LinkClassification.RecordBetween | frontend/src/utils/link-classification.ts:163-191 | A record of the pair is a call exactly when its duration is positive, and its timestamp repeats its date |
| LinkClassification.FindCallsBetweenNodes | frontend/src/utils/link-classification.ts:153-194 | The `forEach` collects exactly the records of the pair, in row order |
| LinkClassification.CallsBetweenSymmetric | frontend/src/utils/link-classification.ts:174-176 | Which end of the pair is the source does not change the records found |
| LinkClassification.CeilDiv | frontend/src/utils/link-classification.ts:57 | `Math.ceil(n / d)` is the least q with n ≤ d·q |
| LinkClassification.TemporalScore | frontend/src/utils/link-classification.ts:101 | The corrected regularity part lies in [0, 1] |
| LinkClassification.CompositeScoreExceeds100 | frontend/src/utils/link-classification.ts:87-113 | As written, 50 five-minute calls on 8 dates at most 7 days apart score 102 |
| LinkClassification.CompositeScore | frontend/src/utils/link-classification.ts:87-113 | The corrected score, every part capped at one: from non-negative durations it lies in [0, 100] |
| LinkClassification.CompositeScoreAsWrittenRange | frontend/src/utils/link-classification.ts:87-113 | As written, a score from non-negative durations is never negative, and is at most 100 when the records fall on at most seven days or spread over more than a week |
| LinkClassification.CompositeScoreAgrees | frontend/src/utils/link-classification.ts:101 | In exactly those cases the written score equals the capped one |
| LinkClassification.UncappedScorePromotes | frontend/src/utils/link-classification.ts:87-131 | As written, 16 five-minute calls on 8 dates at most 7 days apart score 70, a primary link, where the capped score 68 makes it secondary |
| LinkClassification.TimeSpreadSpec | frontend/src/utils/link-classification.ts:55-59 | Fewer than two days give a spread of 1; otherwise the spread is the rounded-up day distance from the least to the greatest day in string order |
| LinkClassification.ClassifyLinkMonotone | frontend/src/utils/link-classification.ts:118-131 | A higher score, more calls or more days never weaken a link's class |
| LinkClassification.CalculateLinkStrength | frontend/src/utils/link-classification.ts:33-82 | No records give the all-zero weak link with spread 0; otherwise the frequency is the number of records, the total their summed duration, the average total/frequency, the unique days the number of distinct dates (at least 1, at most the frequency), the score `calculateCompositeScore` as written and the class `classifyLink` of these |
| LinkClassification.LinkScoreRange | frontend/src/utils/link-classification.ts:33-82 | Without negative durations a link score is never negative, and is at most 100 when the records fall on at most seven days or spread over more than a week |
| LinkClassification.LinkTimeSpread | frontend/src/utils/link-classification.ts:51-59 | One day of contact gives spread 1; more days give the spread from the earliest to the latest of the records' dates |
| LinkClassification.LinkStrengthOrderFree | frontend/src/utils/link-classification.ts:33-82 | The strength depends only on which records there are, not on their order |
| LinkClassification.ClassifyNetworkEdges | frontend/src/utils/link-classification.ts:136-148 | Every edge is kept, in order, with its records counted as its call frequency |
| LinkClassification.EnhanceSymmetric | frontend/src/utils/link-classification.ts:136-148 | Swapping an edge's ends gives the same records and the same strength |
| LinkClassification.LinkClassWidth | frontend/src/utils/link-classification.ts:240-251 | A link is never drawn narrower than one pixel |
| LinkClassification.LinkClassWidthOrdered | frontend/src/utils/link-classification.ts:240-251 | For one base width a stronger class is never drawn thinner |
| NetworkData.Clean | frontend/src/hooks/useNetworkData.ts:70-71 | A cleaned number has at least seven characters, all digits or `+` |
| NetworkData.ReadContact | frontend/src/hooks/useNetworkData.ts:62-75 | A row yields a contact only with at least one cleaned number |
| NetworkData.Record | frontend/src/hooks/useNetworkData.ts:77-102 | The loop body updates both numbers and their pair exactly as one aggregation step |
| NetworkData.Tabulate | frontend/src/hooks/useNetworkData.ts:59-103 | The `forEach` over the listings leaves the counters of the aggregation of all rows |
| NetworkData.InteractionCount | frontend/src/hooks/useNetworkData.ts:78-92 | A number has an entry exactly when it appears on some row, and its calls plus SMS count its appearances |
| NetworkData.AggregateFigures | frontend/src/hooks/useNetworkData.ts:77-92 | A number's `calls` counts its appearances on rows that are not SMS, its `sms` its appearances on SMS rows, and its `totalDuration` sums the seconds of the calls only |
| NetworkData.FirstCreation | frontend/src/hooks/useNetworkData.ts:77-92 | A number's IMEI and location are those of the first row it appears on when it is the caller there, and stay absent when it first appears as callee, whatever follows |
| NetworkData.AggregateWellFormed | frontend/src/hooks/useNetworkData.ts:59-103 | Both maps' key orders are their insertion orders, without repetition |
| NetworkData.AggregateMutual | frontend/src/hooks/useNetworkData.ts:83-92 | The contact relation is symmetric whatever the row order |
| NetworkData.EdgeKeySymmetric | frontend/src/hooks/useNetworkData.ts:95-96 | Calling and being called count toward the same edge key |
| NetworkData.EdgeCount | frontend/src/hooks/useNetworkData.ts:95-102 | An edge exists exactly for pairs seen together on a row, and counts those rows |
| NetworkData.AggregatePairFigures | frontend/src/hooks/useNetworkData.ts:95-102 | A pair's `calls` counts its rows that are not SMS, its `sms` its SMS rows, and its `totalDuration` the seconds of its calls |
| NetworkData.EdgeKeySplits | frontend/src/hooks/useNetworkData.ts:134-136 | Splitting an edge key on `|` gives back its two numbers in sorted order |
| NetworkData.AggregateResolves | frontend/src/hooks/useNetworkData.ts:134-150 | Both ends of every edge key have entries of their own |
| NetworkData.KeptPhones | frontend/src/hooks/useNetworkData.ts:105-111 | Exactly the numbers passing the filters are kept, once each, in insertion order |
| NetworkData.NodeTypeOf | frontend/src/hooks/useNetworkData.ts:115-117 | Service exactly above 10 contacts; primary exactly when not service and above 20 records |
| NetworkData.MakeNodes | frontend/src/hooks/useNetworkData.ts:113-132 | One node per kept number, in order |
| NetworkData.EdgeWidth | frontend/src/hooks/useNetworkData.ts:147 | Widths lie in [1, 8] and are half the total in between |
| NetworkData.MakeEdges | frontend/src/hooks/useNetworkData.ts:134-150 | Each edge comes from a key whose two numbers were both kept, has those numbers as source and target, and carries the pair's call and SMS counts and their sum |
| NetworkData.MakeEdgesIds | frontend/src/hooks/useNetworkData.ts:134-150 | The edge ids are exactly the keys whose two numbers were kept, in insertion order |
| NetworkData.MakeEdgesComplete | frontend/src/hooks/useNetworkData.ts:134-150 | Every key whose two numbers were kept yields an edge, and distinct keys give distinct edge ids |
| NetworkData.UseNetworkData | frontend/src/hooks/useNetworkData.ts:44-155 | The hook computes the aggregation-then-graph specification |
| NetworkData.EdgesJoinNodes | frontend/src/hooks/useNetworkData.ts:134-150 | Every edge of the graph joins two of its nodes |
| NetworkData.IndividualsRestrictNodes | frontend/src/hooks/useNetworkData.ts:109 | Choosing individuals shows only those numbers |
| NetworkData.NodesAreDistinct | frontend/src/hooks/useNetworkData.ts:113-132 | No number is drawn twice |
| NetworkData.GraphEdgesComplete | frontend/src/hooks/useNetworkData.ts:95-150 | Every pair seen on a row whose two numbers pass the filters is drawn, and no edge is drawn twice |
| FileUploader.SheetKey | frontend/src/components/workbench/FileUploader.tsx:44 | Normalised sheet names only contain `[a-z0-9]` |
| FileUploader.SheetKeyIdempotent | frontend/src/components/workbench/FileUploader.tsx:44 | Normalising a normalised name changes nothing |
| FileUploader.AccentsVanish | frontend/src/components/workbench/FileUploader.tsx:44 | Accented letters are deleted, not folded: "Abonné" becomes "abonn" |
| FileUploader.FindName | frontend/src/components/workbench/FileUploader.tsx:46 | `find` returns the first sheet whose key matches, and nothing exactly when none does |
| FileUploader.AliasOrder | frontend/src/components/workbench/FileUploader.tsx:48-52 | The alias loop returns the first sheet of the first alias, in list order, that any sheet matches |
| FileUploader.FindSheetMatch | frontend/src/components/workbench/FileUploader.tsx:43-54 | A match is a non-empty sheet name of the workbook whose key is the required name's or one of its aliases' |
| FileUploader.FindSheetMatchSpec | frontend/src/components/workbench/FileUploader.tsx:43-54 | An exact normalised match wins; only without one are the aliases of the required name tried |
| FileUploader.NormalizeSmsRow | frontend/src/components/workbench/FileUploader.tsx:57-70 | An SMS row is renamed to the listing columns, typed "SMS", with its sender, receiver and date copied and an empty hour |
| FileUploader.NormalizeSmsData | frontend/src/components/workbench/FileUploader.tsx:57-70 | One renamed row per SMS row, in order |
| FileUploader.DetectChoice | frontend/src/components/workbench/FileUploader.tsx:73-109 | The call-and-SMS layout needs both listings, the standard layout is chosen otherwise when a listing exists, and the shared-IMEI layout is never chosen |
| FileUploader.ValidateAndParseWorkbook | frontend/src/components/workbench/FileUploader.tsx:113-166 | The detection, required-sheet and mapping loops compute the parse specification |
| FileUploader.CheckRequired | frontend/src/components/workbench/FileUploader.tsx:128-138 | The loop lists the unmatched sheets in required order and records each match |
| FileUploader.CollectRows | frontend/src/components/workbench/FileUploader.tsx:147-164 | The mapping loop concatenates the mapped rows in mapping order |
| FileUploader.MissingMembers | frontend/src/components/workbench/FileUploader.tsx:131-137 | A sheet is listed as missing exactly when it is required and not matched |
| FileUploader.FoundSheetsEntries | frontend/src/components/workbench/FileUploader.tsx:131-137 | `foundSheets` holds exactly the matched sheets, each with its match |
| FileUploader.UnknownWorkbook | frontend/src/components/workbench/FileUploader.tsx:117-125 | An unrecognised workbook yields no data, the one fixed message and "Unknown Structure" |
| FileUploader.RecognisedWorkbook | frontend/src/components/workbench/FileUploader.tsx:128-142 | A recognised workbook yields data exactly when every required sheet matches |
| FileUploader.OrangeData | frontend/src/components/workbench/FileUploader.tsx:76-86 | Call-and-SMS workbooks give the subscriber rows and the call rows followed by the renamed SMS rows |
| FileUploader.MtnData | frontend/src/components/workbench/FileUploader.tsx:88-96 | Standard workbooks give their subscriber and listing rows unchanged |
| FileUploader.AddWorkbooksLoop | frontend/src/components/workbench/FileUploader.tsx:317-326 | The per-workbook loop adds one status per workbook and appends parsed rows |
| FileUploader.AddWorkbookStep | frontend/src/components/workbench/FileUploader.tsx:319-325 | One workbook adds a success status with its rows, or a failure status naming the missing sheets, exactly as one step of the batch specification |
| FileUploader.ProcessAllFiles | frontend/src/components/workbench/FileUploader.tsx:307-348 | Processing computes the batch specification |
| FileUploader.ProcessedStatuses | frontend/src/components/workbench/FileUploader.tsx:334-345 | Statuses are sorted by file name and are a permutation of the gathered ones; the error is raised exactly when no listing row was extracted |
| FileUploader.GatherCount | frontend/src/components/workbench/FileUploader.tsx:313-332 | One status per workbook, or one per unreadable file |
| FileUploader.NothingParsesReportsError | frontend/src/components/workbench/FileUploader.tsx:337-345 | When nothing parses no data is kept and the error callback fires |
| FileUploader.OnDrop | frontend/src/components/workbench/FileUploader.tsx:356-363 | Dropping keeps the staged files first, unchanged |
| FileUploader.OnDropNames | frontend/src/components/workbench/FileUploader.tsx:359-361 | Every dropped name ends up staged, and no added file repeats a staged name |
| FileUploader.OnDropIdempotent | frontend/src/components/workbench/FileUploader.tsx:356-363 | Dropping the same files twice stages them once |
| FileUploader.StartAnalysis | frontend/src/components/workbench/FileUploader.tsx:365-369 | Analysis starts exactly with parsed data and a name that is not blank, and hands over the trimmed name |
| NetworkGraph.EnhancedEdges | frontend/src/components/workbench/NetworkGraph.tsx:50-53 | With listings every edge is classified, in order; without, there are none |
| NetworkGraph.FilteredEdges | frontend/src/components/workbench/NetworkGraph.tsx:56-82 | Exactly the links passing the filters are kept |
| NetworkGraph.DefaultFiltersKeepAll | frontend/src/components/workbench/NetworkGraph.tsx:59-61 | Default filters keep every link with a non-negative score |
| NetworkGraph.HiddenWeakLinks | frontend/src/components/workbench/NetworkGraph.tsx:74-76 | Hiding weak links removes every weak link |
| NetworkGraph.CollectEndpoints | frontend/src/components/workbench/NetworkGraph.tsx:96-100 | The loop collects exactly both ends of every passing link |
| NetworkGraph.ComputeVisibleNodes | frontend/src/components/workbench/NetworkGraph.tsx:85-107 | The search and endpoint filters compute the visible-node specification |
| NetworkGraph.VisibleNodesSpec | frontend/src/components/workbench/NetworkGraph.tsx:85-107 | A node is drawn exactly when it matches the search and, if some link passes, is the end of a passing link |
| NetworkGraph.VisibleEdges | frontend/src/components/workbench/NetworkGraph.tsx:109-115 | Only passing links both of whose ends are drawn are drawn |
| NetworkGraph.PassingLinksDrawn | frontend/src/components/workbench/NetworkGraph.tsx:85-115 | Without a search term every passing link is drawn |
| NetworkGraph.ClassesPartition | frontend/src/components/workbench/NetworkGraph.tsx:118-128 | Every link is counted in exactly one class |
| NetworkGraph.AverageStrengthRange | frontend/src/components/workbench/NetworkGraph.tsx:124-126 | With scores in [0, 100] the mean strength lies in [0, 100] |
| NetworkGraph.Toggle | frontend/src/components/workbench/NetworkGraph.tsx:212 | Clicking the selected node deselects it; any other click selects the clicked node |
| NetworkGraph.ToggleTwice | frontend/src/components/workbench/NetworkGraph.tsx:212 | Two clicks on the same node from no selection select nothing |
| NetworkGraph.Canvas.constructor | frontend/src/components/workbench/NetworkGraph.tsx:30-48 | Nothing is selected and no details are shown initially |
| NetworkGraph.Canvas.HandleNodeClick | frontend/src/components/workbench/NetworkGraph.tsx:209-221 | Without a bounding box nothing changes; otherwise the selection toggles and the panel sits at the click, relative to the box |
| NetworkGraph.NeighbourhoodSpec | frontend/src/components/workbench/NetworkGraph.tsx:223-233 | Another number is highlighted exactly when a drawn link joins it to the selected one |
| NetworkGraph.ConnectedNodeIds | frontend/src/components/workbench/NetworkGraph.tsx:223-233 | The loop computes the neighbourhood specification |
| FilterPanel.UpdateFilter | frontend/src/components/workbench/FilterPanel.tsx:50-52 | The updated key holds the new value and every other key is unchanged |
| FilterPanel.UpdateUnchanged | frontend/src/components/workbench/FilterPanel.tsx:50-52 | Writing the value a key already holds changes nothing |
| FilterPanel.UpdateLastWins | frontend/src/components/workbench/FilterPanel.tsx:50-52 | Of two updates to one key the later wins |
| FilterPanel.UpdatesCommute | frontend/src/components/workbench/FilterPanel.tsx:50-52 | Updates to different keys commute |
| FilterPanel.ResetShowsEveryLink | frontend/src/components/workbench/FilterPanel.tsx:54-66 | After a reset the graph draws every link with a non-negative score |
| FilterPanel.ToggleLinkType | frontend/src/components/workbench/FilterPanel.tsx:97-102 | A type is selected afterwards exactly when it was not before, and every other type keeps its state |
| FilterPanel.ToggleTwiceSameSet | frontend/src/components/workbench/FilterPanel.tsx:97-102 | Toggling twice restores the set of selected types |
| FilterPanel.ToggleAbsentTwice | frontend/src/components/workbench/FilterPanel.tsx:97-102 | Toggling an absent type twice restores the very list |
| FilterPanel.HandleLinkTypeToggle | frontend/src/components/workbench/FilterPanel.tsx:97-102 | Only the link types change, and only at the toggled type |
| FilterPanel.ToggledOffHidden | frontend/src/components/workbench/FilterPanel.tsx:97-102 | Hiding a type hides every link of that class from the graph |
| FilterPanel.AddFound | frontend/src/components/workbench/FilterPanel.tsx:74-75 | Adding a found value keeps the set duplicate-free |
| FilterPanel.ContactsSpec | frontend/src/components/workbench/FilterPanel.tsx:68-80 | The contact set holds each caller and callee of the rows exactly once |
| FilterPanel.ContactOptionsSpec | frontend/src/components/workbench/FilterPanel.tsx:68-80 | Options are sorted, duplicate-free and exactly the callers and callees; none without listings |
| FilterPanel.ContactNonEmpty | frontend/src/components/workbench/FilterPanel.tsx:74-75 | No option is the empty string |
| FilterPanel.ComputeContactOptions | frontend/src/components/workbench/FilterPanel.tsx:68-80 | The loop and the sort compute the option specification |
| FilterPanel.DurationParts | frontend/src/components/workbench/FilterPanel.tsx:236 | The label's minutes and seconds recompose the maximum, with seconds below 60 |
| NodeDetails.ConnectedEdges | frontend/src/components/workbench/NodeDetails.tsx:22-25 | Exactly the links starting or ending at the node are kept |
| NodeDetails.SumSplits | frontend/src/components/workbench/NodeDetails.tsx:26-27 | The node's links and the others split every total |
| NodeDetails.PanelLeft | frontend/src/components/workbench/NodeDetails.tsx:39 | The panel's left edge is the smaller of the two bounds |
| NodeDetails.PanelTop | frontend/src/components/workbench/NodeDetails.tsx:40 | The panel's top is at least 20 pixels |
| NodeDetails.Details | frontend/src/components/workbench/NodeDetails.tsx:17-72 | Nothing without a node; the link count is the number of connected links |
| NodeDetails.DetailsTotals | frontend/src/components/workbench/NodeDetails.tsx:26-27 | The panel's totals never exceed the graph's and are zero without links |
| IndividualInfo.RowFacts | frontend/src/components/workbench/IndividualInfo.tsx:91-120 | An interaction is outgoing exactly when the number is its caller, and always has a counterpart |
| IndividualInfo.TallyInteractions | frontend/src/components/workbench/IndividualInfo.tsx:90-121 | The `forEach` computes the counter specification |
| IndividualInfo.CountInteraction | frontend/src/components/workbench/IndividualInfo.tsx:91-120 | One interaction updates the counters exactly as one step of the tally |
| IndividualInfo.TallyCounts | frontend/src/components/workbench/IndividualInfo.tsx:90-121 | The four direction and kind counters add up to the interactions, and the histogram counts the dated ones |
| IndividualInfo.TallyContacts | frontend/src/components/workbench/IndividualInfo.tsx:97-99 | The contact set is the distinct counterparts in order of first appearance |
| IndividualInfo.TallyFrequency | frontend/src/components/workbench/IndividualInfo.tsx:99 | The frequency table counts each contact's interactions |
| IndividualInfo.HourGridStartsLate | frontend/src/components/workbench/IndividualInfo.tsx:84 | As written, the hour grid does not start at "00" |
| IndividualInfo.HourGrid | frontend/src/components/workbench/IndividualInfo.tsx:230-232 | The corrected grid runs from "00" to "23" in hour order |
| IndividualInfo.DetectedPatterns | frontend/src/components/workbench/IndividualInfo.tsx:125-128 | Each flag is raised exactly under its threshold, each at most once |
| IndividualInfo.Recent | frontend/src/components/workbench/IndividualInfo.tsx:130-133 | The recent list holds the ten newest interactions, or all of them when there are fewer |
| IndividualInfo.RecentSpec | frontend/src/components/workbench/IndividualInfo.tsx:130-133 | The recent list is newest first, at most ten, and nothing left out is newer |
| IndividualInfo.MostFrequentSpec | frontend/src/components/workbench/IndividualInfo.tsx:123 | The most frequent contact is a contact with its own count, and no contact is more frequent |
| IndividualInfo.StatsSpec | frontend/src/components/workbench/IndividualInfo.tsx:68-145 | No profile without a number or listings; otherwise the counters add up, the contacts are bounded, the histogram has 24 cells and the average is 0 exactly without timed calls |
| IndividualInfo.ComputeStats | frontend/src/components/workbench/IndividualInfo.tsx:68-145 | The memo computes the profile specification |
| IndividualInfo.FormatDurationCarryMissing | frontend/src/components/workbench/IndividualInfo.tsx:159-165 | As written, 7170 seconds are shown as "1h 60m" |
| IndividualInfo.FormatDuration | frontend/src/components/workbench/IndividualInfo.tsx:159-165 | Every shown part is below 60, and hours and minutes recompose the rounded minutes |
| IndividualInfo.FormatDurationAgrees | frontend/src/components/workbench/IndividualInfo.tsx:159-165 | Wherever the written version shows proper parts, the corrected one shows the same |
| IndividualInfo.ActivityBand | frontend/src/components/workbench/IndividualInfo.tsx:167-174 | A cell is uncoloured exactly when it or the maximum is zero |
| IndividualInfo.ActivityBandMonotone | frontend/src/components/workbench/IndividualInfo.tsx:167-174 | A busier hour never gets a cooler colour, and the busiest is red |
| IndividualInfo.MaxActivity | frontend/src/components/workbench/IndividualInfo.tsx:176 | The maximum is at least 1, bounds every cell and is reached unless it is 1 |
| IndividualInfo.ActivityScore | frontend/src/components/workbench/IndividualInfo.tsx:192 | The score is the interaction count capped at 100 |
| LocationGraph.CoordinatesFrom | frontend/src/components/workbench/LocationGraph.tsx:156-176 | A reading is returned exactly when some pattern accepts, it is in range, and it comes from the first accepting pattern |
| LocationGraph.ParseCoordinates | frontend/src/components/workbench/LocationGraph.tsx:137-178 | The pattern loop computes the coordinate specification, always in range |
| LocationGraph.CommaFormLongitudeFirst | frontend/src/components/workbench/LocationGraph.tsx:163-166 | In the comma forms the first number is the longitude |
| LocationGraph.PointOf | frontend/src/components/workbench/LocationGraph.tsx:252-307 | A row yields a point only with a caller, a place and a date, and the point is dated, typed and in range |
| LocationGraph.ListingPointsSpec | frontend/src/components/workbench/LocationGraph.tsx:252-307 | The listing points are exactly those of the rows that read, each dated and in range |
| LocationGraph.PhoneOrder | frontend/src/components/workbench/LocationGraph.tsx:304-306 | Paths are keyed by each caller once, in order of first point |
| LocationGraph.Push | frontend/src/components/workbench/LocationGraph.tsx:304-307 | One push extends the caller's path and adds a new caller at the end |
| LocationGraph.PushKeepsPaths | frontend/src/components/workbench/LocationGraph.tsx:304-307 | Pushing keeps the order and paths those of the longer list |
| LocationGraph.GroupByPhone | frontend/src/components/workbench/LocationGraph.tsx:332-338 | The loop computes the grouping specification |
| LocationGraph.TimeOrdered | frontend/src/components/workbench/LocationGraph.tsx:314-316 | A sorted path is in time order and a permutation of the path |
| LocationGraph.PreprocessedBypass | frontend/src/components/workbench/LocationGraph.tsx:192-210 | Pre-processed locations bypass the listings and all belong to the unknown caller |
| LocationGraph.ProcessListings | frontend/src/components/workbench/LocationGraph.tsx:252-308 | One loop yields the listing points and each caller's path |
| LocationGraph.SortPaths | frontend/src/components/workbench/LocationGraph.tsx:314-316 | Every path is put in time order and nothing else changes |
| LocationGraph.ComputeProcessedData | frontend/src/components/workbench/LocationGraph.tsx:188-319 | The memo computes the processing specification |
| LocationGraph.ProcessedPathsSpec | frontend/src/components/workbench/LocationGraph.tsx:252-316 | Each caller's path holds that caller's points in time order |
| LocationGraph.PathsPartitionPoints | frontend/src/components/workbench/LocationGraph.tsx:303-307 | Every point lies in exactly one path |
| LocationGraph.CallsFilterDropsEverything | frontend/src/components/workbench/LocationGraph.tsx:325 | As written, the calls filter keeps no point at all |
| LocationGraph.KeepsSpec | frontend/src/components/workbench/LocationGraph.tsx:324-330 | The corrected filter keeps call points under the calls filter and agrees with the written one elsewhere |
| LocationGraph.FilteredData | frontend/src/components/workbench/LocationGraph.tsx:323-340 | The memo filters the points with the test as written, then its grouping loop groups the kept points by caller |
| LocationGraph.FilteredPathsSpec | frontend/src/components/workbench/LocationGraph.tsx:323-338 | The kept points are exactly the points passing the filter as written; each path is its caller's kept points, non-empty, the paths add up to the kept points, and under the calls filter there is no path |
| LocationGraph.LatestTime | frontend/src/components/workbench/LocationGraph.tsx:355 | `Math.max` of the timestamps: the greatest of them and one of them, or `None` (NaN) as soon as one date is invalid |
| LocationGraph.ToggleIndividual | frontend/src/components/workbench/LocationGraph.tsx:346 | Clicking the highlighted caller clears the highlight; any other click highlights that caller |
| LocationGraph.ToggleIndividualTwice | frontend/src/components/workbench/LocationGraph.tsx:346 | Two clicks on a caller restore the highlight exactly when nothing or that caller was highlighted before |
| LocationGraph.IndividualReport | frontend/src/components/workbench/LocationGraph.tsx:347-357 | A report iff the caller has a kept point; it names the caller and gives the count of its kept points as interactions and locations, and their latest timestamp |
| LocationGraph.ReportedLatest | frontend/src/components/workbench/LocationGraph.tsx:353-356 | The reported time is the greatest timestamp among the caller's kept points and is one of them, and it is present iff all of them are valid dates |
| LocationGraph.Highlight.constructor | frontend/src/components/workbench/LocationGraph.tsx:186 | No caller is highlighted at first |
| LocationGraph.Highlight.HandleIndividualClick | frontend/src/components/workbench/LocationGraph.tsx:345-358 | The highlight becomes the toggle of the old one, and the report returned is that of the caller's kept points |
| LocationGraph.IndividualStatsSum | frontend/src/components/workbench/LocationGraph.tsx:361-366 | Calls and SMS never exceed the caller's total |
| LocationGraph.GenerateColorCycle | frontend/src/components/workbench/LocationGraph.tsx:180-183 | Colours repeat every ten callers and the first ten are distinct |
| CsvHelper.UnescapeEscape | frontend/src/lib/csvHelper.ts:8 | Every string literal the export writes decodes back to the original text |
| CsvHelper.LineHasNoNewline | frontend/src/lib/csvHelper.ts:7-9 | A data line never contains a line break |
| CsvHelper.CsvLines | frontend/src/lib/csvHelper.ts:6-10 | The text splits into the header line and one line per row, the header being the first row's keys |
| CsvHelper.ConvertToCsvEmpty | frontend/src/lib/csvHelper.ts:3-5 | The text is empty exactly for a missing or empty array |
| CsvHelper.CellDecodes | frontend/src/lib/csvHelper.ts:8 | A text cell reads back as its text; a null cell is written as the empty string |
| CsvHelper.MissingCellIsEmptyString | frontend/src/lib/csvHelper.ts:8 | A header key the row lacks is written as `""` |
| GraphResponse.ConvertProperties | backend/app/routers/graph.py:11-18 | The loop computes the property conversion |
| GraphResponse.ConvertedPropsSpec | backend/app/routers/graph.py:11-18 | Same keys in order; date-times become ISO text and every other value is unchanged |
| GraphResponse.RunSpec | backend/app/routers/graph.py:28-35 | While the node loop runs, `node_ids` is exactly the ids met; the emitted node ids are distinct, in order of their first sighting, and each node is converted from the first path node met with its id |
| GraphResponse.RunFails | backend/app/routers/graph.py:32 | The node scan fails exactly when some first-seen node has no label |
| GraphResponse.AddNodes | backend/app/routers/graph.py:28-35 | The inner loop advances the node scan over one path |
| GraphResponse.AddEdges | backend/app/routers/graph.py:36-43 | Every relationship of a path becomes one edge, appended in order, so the edges stay the converted relationships of all records read so far |
| GraphResponse.FormatGraphResponse | backend/app/routers/graph.py:20-44 | The loops compute the response specification |
| GraphResponse.PathlessRecordIgnored | backend/app/routers/graph.py:25-27 | A record without a path changes nothing |
| GraphResponse.FormatGraphFails | backend/app/routers/graph.py:20-44 | The response is a failure exactly when some first-seen node has no label, and then it is a 500 |
| GraphResponse.FormatGraphSpec | backend/app/routers/graph.py:28-43 | A successful response lists one node per distinct path-node id, covering every path node, in order of first appearance, each converted (first label, converted properties) from the first path node with that id; and one edge per relationship crossing, in order |
| GraphResponse.FullGraph | backend/app/routers/graph.py:48-56 | No records give an empty graph |
| GraphResponse.SearchSubscriber | backend/app/routers/graph.py:59-76 | No records give a 404 "Subscriber not found" |
| GraphResponse.ShortestPath | backend/app/routers/graph.py:79-98 | No records give a 404 "No path found between the specified subscribers" |
| GraphResponse.EndpointsAgree | backend/app/routers/graph.py:48-98 | With records, the three endpoints format them alike |
| AuthBackend.CurrentUser | backend/app/dependencies.py:13-51 | A payload handed back is always the token's own decoded payload; `AuthBackend.CurrentUserSpec` states when one is handed back |
| AuthBackend.CurrentUserSpec | backend/app/dependencies.py:13-51 | A payload is returned exactly for a token that decodes, has `sub` and `jti`, and is not revoked; the failures are 401 and 403 |
| AuthBackend.ClaimsBeforeBlocklist | backend/app/dependencies.py:27-38 | The claims are checked before the blocklist |
| AuthBackend.BlocklistGrows | backend/app/dependencies.py:34-38 | Revoking more tokens can only turn an accepted token into a revoked one |
| AuthBackend.CurrentAdminUser | backend/app/dependencies.py:54-66 | Admin access is granted exactly to an accepted token with role "admin"; any other accepted token is refused with 403 |
| AuthBackend.Login | backend/app/routers/auth.py:15-45 | Every login failure is the same 401 |
| AuthBackend.LoginSpec | backend/app/routers/auth.py:15-45 | A bearer token is issued exactly for an active user with a matching password, signed over the user's name and role |
| AuthBackend.IssuedTokenAccepted | backend/app/routers/auth.py:41-45 | An issued token is accepted and passes the admin check exactly for an administrator |
| AuthBackend.AuthServer.constructor | backend/app/core/blocklist.py:1-3 | The blocklist starts empty |
| AuthBackend.AuthServer.Logout | backend/app/routers/auth.py:48-55 | An accepted token's id is revoked, after which the token is refused; a refused token changes nothing |
| AuthBackend.LogoutRevokesOnlyThatToken | backend/app/routers/auth.py:48-55 | Logging out revokes that token and no token with another id |
| AuthBackend.LogoutTwice | backend/app/routers/auth.py:48-55 | A second logout with the same token gets 403 |
| Middleware.WithoutLocale | frontend/middleware.ts:20 | The stripped path is never empty |
| Middleware.FindLocale | frontend/middleware.ts:30 | The first locale the path begins with, and none exactly when it begins with no locale |
| Middleware.Route | frontend/middleware.ts:22-54 | A request is redirected exactly when its route is protected and it has no token, to its locale's login page with the original path as `from` |
| Middleware.ProtectedIff | frontend/middleware.ts:6 | A route is protected exactly when the path without its locale begins with `/workbench` or `/dashboard` |
| Middleware.LocaleAgreement | frontend/middleware.ts:20-30 | Stripping and redirecting read the same locale |
| Middleware.PrefixedRoutesProtected | frontend/middleware.ts:20-23 | Locale-prefixed protected pages are protected, even `/en/workbenchX` |
| Middleware.UnprefixedRoutesProtected | frontend/middleware.ts:20-23 | `/dashboard` is protected; `/en` and `/` are not |
| Middleware.FrenchDashboardRedirect | frontend/middleware.ts:25-37 | A French dashboard request without a token goes to `/fr/login` |
| LanguageSwitcher.LocalizedPath | frontend/src/components/LanguageSwitcher.tsx:21-24 | A switched path begins with the new locale |
| LanguageSwitcher.LocalizedRoot | frontend/src/components/LanguageSwitcher.tsx:21-24 | The locale root switches to the other root |
| LanguageSwitcher.LocalizedPage | frontend/src/components/LanguageSwitcher.tsx:21-24 | A page under a locale keeps its path under the new locale |
| LanguageSwitcher.SwitchBack | frontend/src/components/LanguageSwitcher.tsx:21-24 | Switching there and back restores the path |
| LanguageSwitcher.TrailingSlashDropped | frontend/src/components/LanguageSwitcher.tsx:21-24 | Switching from the locale root written with a trailing slash drops the slash: `/en/` becomes `/fr` |
| LanguageSwitcher.CurrentLanguage | frontend/src/components/LanguageSwitcher.tsx:26 | The shown language is always one of the offered ones |
| LanguageSwitcher.CurrentLanguageSpec | frontend/src/components/LanguageSwitcher.tsx:26 | The current locale's language is shown, English otherwise |
| AuthStore.Store.constructor | frontend/src/app/store/authStore.ts:22-26 | The store starts with the stored token and is authenticated exactly when that token is non-empty |
| AuthStore.Store.Login | frontend/src/app/store/authStore.ts:30-35 | Login records token and user and stores the token in the browser |
| AuthStore.Store.Logout | frontend/src/app/store/authStore.ts:37-42 | Logout clears the session and the stored token in the browser |
| AuthStore.Store.Initialize | frontend/src/app/store/authStore.ts:44-63 | Initialisation follows the stored token and the profile answer |
| AuthStore.LogoutIdempotent | frontend/src/app/store/authStore.ts:37-42 | Logging out twice is logging out once, and it always ends logged out |
| AuthStore.InitializeSpec | frontend/src/app/store/authStore.ts:44-63 | No token: logged out; token and profile: signed in; token without profile: logged out |
| AuthStore.InitializeIdempotent | frontend/src/app/store/authStore.ts:44-63 | A second initialisation with the same answer changes nothing |
| AuthStore.LoginThenInitialize | frontend/src/app/store/authStore.ts:30-63 | A browser session survives a reload when the profile is fetched, and is cleared when it is not |
| AuthStore.LogoutThenInitialize | frontend/src/app/store/authStore.ts:37-63 | After a browser logout, initialisation signs nobody in |
| Notifications.NewEntry | frontend/src/components/ui/Notification.tsx:31-38 | A missing duration becomes 30000 and an explicit one is kept |
| Notifications.Removed | frontend/src/components/ui/Notification.tsx:27-29 | Exactly the entries with other ids remain |
| Notifications.RemoveAbsent | frontend/src/components/ui/Notification.tsx:27-29 | Dismissing an unknown id changes nothing |
| Notifications.RemoveCounts | frontend/src/components/ui/Notification.tsx:27-29 | The list shrinks by the number of entries with that id |
| Notifications.RemoveIdempotent | frontend/src/components/ui/Notification.tsx:27-29 | Dismissing twice is dismissing once |
| Notifications.AddThenRemove | frontend/src/components/ui/Notification.tsx:27-40 | Adding with a new id, then dismissing it, restores the list |
| Notifications.RemoveKeepsOthers | frontend/src/components/ui/Notification.tsx:27-29 | Dismissing keeps every other id's entries in order |
| Notifications.DismissTimer | frontend/src/components/ui/Notification.tsx:58-68 | A timer is set exactly for a non-zero duration, for that many milliseconds |
| Notifications.NotificationList.constructor | frontend/src/components/ui/Notification.tsx:25 | The list starts empty |
| Notifications.NotificationList.Add | frontend/src/components/ui/Notification.tsx:31-40 | The new entry is appended and its id returned |
| Notifications.NotificationList.Remove | frontend/src/components/ui/Notification.tsx:27-29 | The list becomes the removal of the id |
| Notifications.ProviderList.constructor | frontend/src/providers/NotificationProvider.tsx:17 | The list starts empty |
| Notifications.ProviderList.Add | frontend/src/providers/NotificationProvider.tsx:23-31 | The new entry is appended |
| Notifications.ProviderList.Remove | frontend/src/providers/NotificationProvider.tsx:19-21 | The list becomes the removal of the id |
| Notifications.UseNotifications | frontend/src/providers/NotificationProvider.tsx:45-50 | The context is returned exactly inside a provider |
| HistoryTab.UnitOfSpec | frontend/src/components/dashboard/HistoryTab.tsx:34-50 | The chosen unit is strictly exceeded and no larger unit is; boundaries fall to the smaller unit |
| HistoryTab.CountBounds | frontend/src/components/dashboard/HistoryTab.tsx:34-50 | Every unit but seconds shows at least 1 and at most its limit |
| HistoryTab.MinuteBoundary | frontend/src/components/dashboard/HistoryTab.tsx:34-50 | Exactly a minute is "60 seconds ago" |
| HistoryTab.JustOverAMinute | frontend/src/components/dashboard/HistoryTab.tsx:34-50 | 61 seconds are "1 minutes ago" |
| HistoryTab.HourBoundary | frontend/src/components/dashboard/HistoryTab.tsx:34-50 | Exactly an hour is "60 minutes ago" |
| HistoryTab.FutureIsNegative | frontend/src/components/dashboard/HistoryTab.tsx:34-50 | A future date gives "-5 seconds ago" |
| HistoryTab.ActivityDetailsSpec | frontend/src/components/dashboard/HistoryTab.tsx:53-66 | Only deletions warn and only creations succeed; unknown actions get the generic icon and their name |
| HistoryTab.RenameForm.constructor | frontend/src/components/dashboard/HistoryTab.tsx:72-73 | Nothing is being edited initially |
| HistoryTab.RenameForm.Edit | frontend/src/components/dashboard/HistoryTab.tsx:120-123 | Editing starts with the analysis's current name |
| HistoryTab.RenameForm.Save | frontend/src/components/dashboard/HistoryTab.tsx:125-129 | A rename is sent exactly for a name that is not blank, trimmed |
| HistoryTab.RenameForm.Saved | frontend/src/components/dashboard/HistoryTab.tsx:103-108 | A successful update closes the form |

## Left out

- **Outside services.** Reading workbooks and ZIP archives (`XLSX.read`,
  `sheet_to_json`, JSZip) is outside the model: a workbook is its sheet names
  and the rows of each sheet. The same holds for:
  - `new Date`, `getHours`, `toLocaleString` and `Date.now`;
  - `Math.log` and `parseFloat`;
  - JWT signing and decoding, password hashing and the database queries;
  - the `getMe` request.

  Each comes in as a function parameter.
- **Floating point.** Scores and sizes use Dafny reals, and `Math.round` is
  floor(x + 1/2). Where the source checks a date with `isNaN` (the hour
  histogram, the link spread), an invalid date is `None`. So is the NaN that
  `Math.max` gives for the latest timestamp of a caller report
  (`LocationGraph.LatestTime`) when one of its dates is invalid.
- **Number width.** JavaScript numbers are IEEE doubles, exact for integers
  only up to 2^53; the model uses unbounded integers. So `parseInt` of very
  long digit runs (`Text.ParseInt`, `NetworkGraphUtils.ParseDuration`, the
  durations of `LinkClassification`), duration sums and `String(n)` are exact
  in the model where the source would round beyond 2^53. Call records stay
  far below that bound.
- **String order.** JavaScript orders strings by UTF-16 code units; the model
  compares characters. This differs only for characters outside the Basic
  Multilingual Plane. `localeCompare` is modelled as the same order.
- **Case mapping.** Case mapping covers ASCII and Latin-1 only.
- **`Promise.all` in `processAllFiles`.** Files are handled in list order; the
  source's interleaving of file reads is not modelled.
- **Rendering.** Rendering, d3 force simulation, zoom, drag, the map view and
  animations are not modelled. The same holds for:
  - how the map view dims the other callers' paths and markers once
    `handleIndividualClick` has highlighted a caller (the highlight and the
    report to the workbench are modelled);
  - the dropdown of the language switcher and its click-outside listener.
- **Framework behaviour.** The next-intl handler is `I18nRouting` and is not
  modelled further. URL encoding of the `from` parameter is not modelled.
  React Query caching and invalidation, `console.error`, `setTimeout`
  scheduling, the delete confirmation and `handleView` are left out, along
  with the style tables (`getTypeStyles`, icon maps).
- **Back-end details.** `create_access_token` is not part of this model; the
  token id it adds appears as a parameter of
  `AuthBackend.IssuedTokenAccepted`. A `None` record in `format_graph_response`
  is treated like a record without a path.
- **Spreadsheet cells.** Cells hold text, integers, booleans or nothing:
  non-integer numbers are not modelled. `Date` cells never arise because rows
  are read as formatted text. For that reason the `Date` branch of
  `normalizeSmsData` is not modelled.
- **Location view.** The `typeof listing` check is not modelled; rows are
  always objects.
- FileUploader.FindSheetMatchSpec: assumes sheet names are non-empty (workbook
  formats forbid empty names), so the source's truthiness test never rejects a
  found name.
- LinkClassification.LinkScoreRange: requires non-negative durations. The source
  reads a duration with `parseInt(String(d)) || 0`, so a cell such as "-30"
  gives -30 seconds; with such records the score can be negative.
- LinkClassification.LinkScoreRange: does not bound the score above when the
  records fall on more than seven distinct days spread over at most a week;
  there the written score can exceed 100 (see "Findings").
- IndividualInfo.StatsSpec: states bounds for the figures. It does not state
  the value of each figure one by one; `IndividualInfo.Stats` defines those.
- IndividualInfo.RecentSpec: `_timestamp` is an integer from the clock
  parameter. In the source, `new Date(x || 0).getTime()` of an unparseable date
  is `NaN`. The comparator `b._timestamp - a._timestamp` then returns `NaN`,
  and the order `sort` leaves is up to the JavaScript engine. The model
  does not cover rows with such dates.
- AuthBackend.Login: states only the error value. `AuthBackend.LoginSpec`
  gives the full contract.

## Findings

| source | as written | input that shows it | evidently intended | confidence | as-written member | corrected member |
|---|---|---|---|---|---|---|
| frontend/src/utils/link-classification.ts:101 | the temporal part is capped at 1 only when the spread exceeds a week, so the 0-100 score can exceed 100 | 50 calls of 300 s on 8 distinct dates with a 7-day spread score 102; 16 such calls score 70, a primary link, where the capped score 68 is secondary (`LinkClassification.UncappedScorePromotes`) | every part capped at 1, score within 0-100 | high, not executed | LinkClassification.CompositeScoreExceeds100 | LinkClassification.CompositeScore |
| frontend/src/components/workbench/IndividualInfo.tsx:159-165 | minutes are rounded after the hours are split off, so they can round up to 60 | 7170 seconds are shown as "1h 60m" | the rounding carries into the hours ("2h 0m") | high, not executed | IndividualInfo.FormatDurationCarryMissing | IndividualInfo.FormatDuration |
| frontend/src/components/workbench/IndividualInfo.tsx:84 | hour keys "10" to "23" are array indices, so `Object.entries` lists them before "00" to "09" | the 24-hour grid starts at "10" | the grid runs from "00" to "23" | high, not executed | IndividualInfo.HourGridStartsLate | IndividualInfo.HourGrid |
| frontend/src/components/workbench/LocationGraph.tsx:325 | the point type `'call'` is compared with the filter value `"calls"` | with the calls filter on, no point is kept | the calls filter keeps the call points | high, not executed | LocationGraph.CallsFilterDropsEverything | LocationGraph.KeepsSpec |
