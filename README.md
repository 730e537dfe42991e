# TorchAlert / TorchAlarm core, modelled in Dafny

TorchAlert and TorchAlarm are Torch plugins for a Space Engineers server. They watch for enemy
grids that come close to a player's grids and notify the player through Discord. This project
models the deterministic middle of that pipeline, and the identity-link and mute state around
it. Each generation of the repository (`TorchAlert.Core`, `TorchAlert.Core.Proximity`,
`TorchAlert.Proximity`, `TorchAlarm`, `TorchAlarm.Discord`, `Discord.Torch`) gets its own
module, because the generations differ in small ways.

- **Split lineage** (`lineage.dfy`). `ParentsLookupTree` records grid splits as links to
  parents and walks the ancestor chain of a grid.
- **Cross-cycle de-duplication.**
  - The proximity alert filter (`alert_filter.dfy`) remembers, per player, the offender grids
    already alerted. It forgets the grids that are no longer observed and suppresses an
    alert when its grid or a split ancestor is remembered.
  - The distance-bucket buffers (`bucket_buffering.dfy`, `core_alert_buffer.dfy`) re-alert a
    (defender, offender) pair only when its distance bucket changes.
  - The first-sighting buffers (`first_sighting.dfy`) emit a pair once and forget pairs that
    are absent from a call.
- **Alert creation.**
  - Three creators (`creators.dfy`, over the last-wins theory in `collapsing.dfy`) expand a
    proximity into one alert per recipient, drop non-enemy pairs, and keep the last alert per
    (player, offender grid).
  - The report maker (`report_maker.dfy`) chooses the defender of a pair of grids and keeps
    one report per (player, defender grid).
- **Octree** (`octree.dfy`). The tree's construction, enumeration, leaves and positional
  insert. Proving its insert uncovered an indexing bug (see Findings).
- **Identity linking.**
  - `link_db.dfy` models the two-way steam/discord map and its tab-separated file lines.
  - `linkers.dfy` models the two link-code issuers: one consumes a code on redemption, the
    other never does.
- **Mutes** (`mutes.dfy`, `responders.dfy`). The mute lists of the three config classes, and
  the "start"/"stop" message classifier.
- **Messages.**
  - `templates.dfy`, `core_alert_client.dfy`, `discord_alert_client.dfy` and
    `discord_alarm_client.dfy` model the placeholder templating, per-recipient grouping and
    sending behaviour of the three Discord clients.
  - `mentions.dfy` and `text.dfy` model `RemoveMentionPrefix` and the .NET string operations
    the code relies on.

Every stateful class is a Dafny `class`. Each method is proved equal to a reference function
of its inputs and old state (`Run`, `Filtered`, `Collapse`, `FillFrom`, `Ancestors`,
`UntilFailure`, ...). The lemmas then prove the promised properties of those functions.

## Model

| member | source | states |
|---|---|---|
| Lineage.AncestorsAfterAdd | TorchAlert/TorchAlert.Core/ParentsLookupTree.cs:42-53 | after `Add(p, c)` the chain of `c` is `p` followed by the chain `p` had at that moment (a known parent's node is reused) |
| Lineage.AddLeavesOthers | TorchAlert/TorchAlert.Core/ParentsLookupTree.cs:50-53 | `Add(p, c)` changes the chain of no id other than `c`: only the new child node gets a `Parent` |
| Lineage.IdsAreMentioned | TorchAlert/TorchAlert.Core/ParentsLookupTree.cs:44-51 | the dictionary's keys are exactly the ids ever passed to `Add`, as parent or as child |
| Lineage.UnmentionedHasNoAncestors | TorchAlert/TorchAlert.Core/ParentsLookupTree.cs:57-62 | an id never added has no ancestors |
| Lineage.RootHasNoAncestors | TorchAlert/TorchAlert.Core/ParentsLookupTree.cs:44-48 | an id seen only as a parent has no ancestors |
| Lineage.AncestorsBounded | TorchAlert/TorchAlert.Core/ParentsLookupTree.cs:24-31 | the walk ends: a chain is never longer than the number of `Add` calls |
| Lineage.AncestorsAreRecordedParents | TorchAlert/TorchAlert.Core/ParentsLookupTree.cs:44-53 | every ancestor is the parent of some recorded `Add` |
| Lineage.ReAddKeepsDescendantChains | TorchAlert/TorchAlert.Core/ParentsLookupTree.cs:50-51 | after `Add(a, b)`, `Add(b, c)`, `Add(x, b)`: `c` keeps the chain `[b, a]` through the old node of `b`, while `b` now has only `[x]` |
| Lineage.IdCanRecurInItsOwnChain | TorchAlert/TorchAlert.Core/ParentsLookupTree.cs:44-53 | after `Add(a, b)`, `Add(b, a)` the chain of `a` is `[b, a]`: an id can appear among its own ancestors |
| Lineage.Node.constructor | TorchAlert/TorchAlert.Core/ParentsLookupTree.cs:11-17 | a node holds its value and a parent fixed at creation; its chain is the parent's value followed by the parent's chain |
| Lineage.Node.TraverseParents | TorchAlert/TorchAlert.Core/ParentsLookupTree.cs:19-31 | the loop yields the values from `Parent` upwards, never the node's own value |
| Lineage.ParentsLookupTree.constructor | TorchAlert/TorchAlert.Core/ParentsLookupTree.cs:36-39 | an empty dictionary and an empty history |
| Lineage.ParentsLookupTree.Add | TorchAlert/TorchAlert.Core/ParentsLookupTree.cs:42-54 | records `(parent, child)`; the keys grow by both ids; every other entry keeps its node; the child gets a new node; the tree stays well formed, so each entry's walk gives the reference ancestors |
| Lineage.ParentsLookupTree.GetParentsOf | TorchAlert/TorchAlert.Core/ParentsLookupTree.cs:57-65 | returns the reference ancestors of the id (empty for an unknown id) and changes nothing |
| Lineage.ReAddScenario | TorchAlert/TorchAlert.Core/ParentsLookupTree.cs:42-65 | the re-add scenario run on the class: `GetParentsOf(3) == [2, 1]` and `GetParentsOf(2) == [9]` |
| CoreProximityAlertFilter.JudgeStep | TorchAlert/TorchAlert.Core.Proximity/ProximityAlertFilter.cs:43-60 | one more alert for a player: held back (memory unchanged) when its offender or an ancestor of it is remembered, otherwise emitted and its offender remembered |
| CoreProximityAlertFilter.GroupPlayers | TorchAlert/TorchAlert.Core.Proximity/ProximityAlertFilter.cs:29-35 | the grouping lists every player once, and exactly the players of the input |
| CoreProximityAlertFilter.GroupMembers | TorchAlert/TorchAlert.Core.Proximity/ProximityAlertFilter.cs:29-35 | a player's group is non-empty, repeats no alert, and holds exactly that player's alerts |
| CoreProximityAlertFilter.GroupFirst | TorchAlert/TorchAlert.Core.Proximity/ProximityAlertFilter.cs:29-35 | a player's group starts with that player's first alert |
| CoreProximityAlertFilter.OffenderIdsMembers | TorchAlert/TorchAlert.Core.Proximity/ProximityAlertFilter.cs:30-35 | the offender ids recorded for a player are exactly the offender grid ids of that player's alerts |
| CoreProximityAlertFilter.GridIdsAppend | TorchAlert/TorchAlert.Core.Proximity/ProximityAlertFilter.cs:59 | one more emitted alert adds exactly its offender grid id |
| CoreProximityAlertFilter.JudgeFacts | TorchAlert/TorchAlert.Core.Proximity/ProximityAlertFilter.cs:43-60 | for one player: every emitted alert is an input; the memory grows by exactly the emitted offenders; each emitted alert was admitted by the memory before the call; no offender is emitted twice and none after a grid it split from |
| CoreProximityAlertFilter.JudgeFirst | TorchAlert/TorchAlert.Core.Proximity/ProximityAlertFilter.cs:43-60 | a player's first alert is emitted when the memory admits it |
| CoreProximityAlertFilter.JudgePlayersRecall | TorchAlert/TorchAlert.Core.Proximity/ProximityAlertFilter.cs:40-42 | judging other players leaves a player's memory alone |
| CoreProximityAlertFilter.JudgePlayersState | TorchAlert/TorchAlert.Core.Proximity/ProximityAlertFilter.cs:40-60 | after the outer loop each judged player holds what its own judgement leaves, and every other remembered player is unchanged |
| CoreProximityAlertFilter.JudgePlayersOut | TorchAlert/TorchAlert.Core.Proximity/ProximityAlertFilter.cs:40-60 | the emitted alerts are exactly those that the players' own judgements emit |
| CoreProximityAlertFilter.JudgePlayersDistinct | TorchAlert/TorchAlert.Core.Proximity/ProximityAlertFilter.cs:40-60 | no (player, offender) pair is emitted twice, and no player is alerted to a grid after a grid it split from |
| CoreProximityAlertFilter.GroupWellFormed | TorchAlert/TorchAlert.Core.Proximity/ProximityAlertFilter.cs:29-35 | the grouping lists each player once and files every alert under its own steam id |
| CoreProximityAlertFilter.RecallForget | TorchAlert/TorchAlert.Core.Proximity/ProximityAlertFilter.cs:37-38 | after forgetting, a player remembers the intersection of its old ids with this call's ids |
| CoreProximityAlertFilter.AdmittedByLess | TorchAlert/TorchAlert.Core.Proximity/ProximityAlertFilter.cs:45-57 | what a memory admits, any smaller memory admits too |
| CoreProximityAlertFilter.FilteredSource | TorchAlert/TorchAlert.Core.Proximity/ProximityAlertFilter.cs:40-60 | an emitted alert comes from its own player's judgement and is one of the inputs |
| CoreProximityAlertFilter.FilteredEmits | TorchAlert/TorchAlert.Core.Proximity/ProximityAlertFilter.cs:40-60 | whatever a present player's judgement emits, the call emits |
| CoreProximityAlertFilter.FilteredMemoryAt | TorchAlert/TorchAlert.Core.Proximity/ProximityAlertFilter.cs:37-60 | afterwards exactly the players of this call are remembered, each with what its judgement leaves |
| CoreProximityAlertFilter.FilterEmitsInputs | TorchAlert/TorchAlert.Core.Proximity/ProximityAlertFilter.cs:29-60 | every emitted alert is one of the input alerts |
| CoreProximityAlertFilter.FilterAlertsOnce | TorchAlert/TorchAlert.Core.Proximity/ProximityAlertFilter.cs:42-60 | within one call at most one alert per (steam id, offender grid id), and no alert for a grid after one for a grid it split from |
| CoreProximityAlertFilter.FilterHoldsBackRemembered | TorchAlert/TorchAlert.Core.Proximity/ProximityAlertFilter.cs:45-57 | an emitted alert's offender was not remembered for its player, and no remembered ancestor of it survives this call's forgetting |
| CoreProximityAlertFilter.FilterMemory | TorchAlert/TorchAlert.Core.Proximity/ProximityAlertFilter.cs:37-60 | afterwards exactly the players of this call are remembered; a player remembers an id iff it was remembered and observed again, or it was just alerted to that player |
| CoreProximityAlertFilter.FilterRemembersOnlyObserved | TorchAlert/TorchAlert.Core.Proximity/ProximityAlertFilter.cs:37-38 | afterwards a player remembers only ids that this call observes for it |
| CoreProximityAlertFilter.FilterAlertsFirstSighting | TorchAlert/TorchAlert.Core.Proximity/ProximityAlertFilter.cs:42-60 | a player's first alert is emitted when neither its offender nor any ancestor of it is remembered for that player |
| CoreProximityAlertFilter.FilterReannouncesReappearance | TorchAlert/TorchAlert.Core.Proximity/ProximityAlertFilter.cs:37-60 | an offender absent from one call is alerted again when it comes back first for its player, unless an ancestor of it is still remembered |
| CoreProximityAlertFilter.ProximityAlertFilter.constructor | TorchAlert/TorchAlert.Core.Proximity/ProximityAlertFilter.cs:20-25 | the filter starts with no memory |
| CoreProximityAlertFilter.ProximityAlertFilter.Filter | TorchAlert/TorchAlert.Core.Proximity/ProximityAlertFilter.cs:27-68 | the emitted alerts and the new memory are those of the reference `Filtered`, about which the lemmas above are proved |
| CoreProximityAlertFilter.ProximityAlertFilter.FilterPlayer | TorchAlert/TorchAlert.Core.Proximity/ProximityAlertFilter.cs:42-61 | one player's inner loop: it emits what `Judge` emits and stores the judged memory for that player only |
| CoreProximityAlertFilter.GroupAlerts | TorchAlert/TorchAlert.Core.Proximity/ProximityAlertFilter.cs:29-35 | the first loop builds exactly the reference grouping and the per-player offender ids |
| BucketBuffering.RunAppendCases | TorchAlert/TorchAlert.Core/ProximityAlertBuffer.cs:23-38 | one more alert: a new key is stored and emitted; a repeat in the stored alert's bucket is dropped with the buffer unchanged; a bucket change replaces the stored alert and is emitted (the same loop as TorchAlarm/TorchAlarm.Core/ProximityAlarmBuffer.cs:23-38) |
| BucketBuffering.RunIsSubsequence | TorchAlert/TorchAlert.Core/ProximityAlertBuffer.cs:23-38 | the output is the input with some alerts left out, in order |
| BucketBuffering.RunKeys | TorchAlert/TorchAlert.Core/ProximityAlertBuffer.cs:13-38 | no key is ever removed: afterwards the keys are the old keys plus every key seen |
| BucketBuffering.StoredIsLastEmitted | TorchAlert/TorchAlert.Core/ProximityAlertBuffer.cs:28-35 | the stored entry changes only on emission: for each key it is the last alert emitted for it, or the old entry when none was |
| BucketBuffering.StoredIsLatest | TorchAlert/TorchAlert.Core/ProximityAlertBuffer.cs:26-35 | once any alert was stored or emitted for a key, the buffer holds the latest of them |
| BucketBuffering.BucketsChangeAppend | TorchAlert/TorchAlert.Core/ProximityAlertBuffer.cs:33-37 | an alert in a bucket other than the latest one extends a bucket-changing run |
| BucketBuffering.EmittedBucketsChange | TorchAlert/TorchAlert.Core/ProximityAlertBuffer.cs:33-37 | per key, each emitted alert lies in a different bucket from the alert stored or emitted before it: a re-alert happens only on a bucket change |
| BucketBuffering.RunOutputKeys | TorchAlert/TorchAlert.Core/ProximityAlertBuffer.cs:28-36 | every emitted alert's key is stored afterwards |
| DistanceBuckets.GetBufferScope | TorchAlert/TorchAlert.Core/ProximityAlertBuffer.cs:41-44 | for a non-negative distance and any non-zero width `w`, the bucket names the band `n * W <= d < (n + 1) * W` of width `W`, the magnitude of `w`, with `n >= 0`: `n` is the bucket itself for a positive width and its negation for a negative one |
| DistanceBuckets.BandOfQuotient | TorchAlert/TorchAlert.Core/ProximityAlertBuffer.cs:43 | truncating `d / w` gives the band of width the magnitude of `w` that holds `d`, negated when `w` is negative |
| DistanceBuckets.SameBucketIffSameBand | TorchAlert/TorchAlert.Core/ProximityAlertBuffer.cs:33 | two non-negative distances share a bucket exactly when they lie in the same band whose width is the magnitude of `BufferDistance`, for either sign of the width |
| DistanceBuckets.BandIsUnique | TorchAlert/TorchAlert.Core/ProximityAlertBuffer.cs:43 | a distance lies in exactly one band |
| CoreAlertBuffer.Config.constructor | TorchAlert/TorchAlert.Core/ProximityAlertBuffer.cs:7-10 | the configuration holds the given width; its field stays assignable, as the plugin's settable `BufferDistance` is |
| CoreAlertBuffer.ProximityAlertBuffer.constructor | TorchAlert/TorchAlert.Core/ProximityAlertBuffer.cs:15-19 | the buffer keeps a reference to the configuration and starts empty |
| CoreAlertBuffer.ProximityAlertBuffer.Buffer | TorchAlert/TorchAlert.Core/ProximityAlertBuffer.cs:21-39 | the emitted alerts and the new buffer are those of the reference `Run` keyed by (defender grid id, offender grid id) and bucketed by `GetBufferScope` under the width configured at the time of the call |
| CoreAlertBuffer.ReconfiguredWidth | TorchAlert/TorchAlert.Core/ProximityAlertBuffer.cs:33-43 | the width is read on every call: with width 10 an alert at 15 is emitted, and after the width is set to 30 the same pair at 25 is held back |
| AlarmBuffer.Config.constructor | TorchAlarm/TorchAlarm.Core/ProximityAlarmBuffer.cs:7-10 | the configuration holds the given width; its field stays assignable |
| AlarmBuffer.ProximityAlarmBuffer.constructor | TorchAlarm/TorchAlarm.Core/ProximityAlarmBuffer.cs:15-19 | the buffer keeps a reference to the configuration and starts empty |
| AlarmBuffer.ProximityAlarmBuffer.Buffer | TorchAlarm/TorchAlarm.Core/ProximityAlarmBuffer.cs:21-39 | the emitted alarms and the new buffer are those of the reference `Run` keyed by (defender grid id, offender grid id) and bucketed by `GetBufferScope` under the width configured at the time of the call |
| FirstSighting.PassAppend | TorchAlert/TorchAlert.Core.Proximity/ProximityAlertBuffer.cs:26-35 | one more alert: a buffered key is skipped with the buffer unchanged; an absent key is recorded and the alert emitted (the same loop as TorchAlert/TorchAlert.Proximity/ProximityAlertBuffer.cs:27-39) |
| FirstSighting.PassKeys | TorchAlert/TorchAlert.Core.Proximity/ProximityAlertBuffer.cs:26-35 | the loop adds exactly the keys seen to the buffer |
| FirstSighting.CallKeys | TorchAlert/TorchAlert.Core.Proximity/ProximityAlertBuffer.cs:26-39 | after a call the buffer holds exactly the keys of that call's input |
| FirstSighting.CallIsSubsequence | TorchAlert/TorchAlert.Core.Proximity/ProximityAlertBuffer.cs:26-35 | the output is the input with some alerts left out, in order |
| FirstSighting.EmittedAreFirstSightings | TorchAlert/TorchAlert.Core.Proximity/ProximityAlertBuffer.cs:28-34 | every emitted alert is the first alert of its key in the input and its key was not buffered before; no key is emitted twice |
| FirstSighting.PassOutputKeys | TorchAlert/TorchAlert.Core.Proximity/ProximityAlertBuffer.cs:33-34 | every alert emitted so far has its key buffered |
| FirstSighting.FirstSightingIsEmitted | TorchAlert/TorchAlert.Core.Proximity/ProximityAlertBuffer.cs:28-34 | conversely, the first alert of a key that was not buffered is emitted |
| FirstSighting.ReappearanceIsAnnounced | TorchAlert/TorchAlert.Core.Proximity/ProximityAlertBuffer.cs:37-39 | a key missing from one call is emitted again by the next call that brings it back |
| CoreProximityAlertBuffer.ProximityAlertBuffer.constructor | TorchAlert/TorchAlert.Core.Proximity/ProximityAlertBuffer.cs:18-22 | the buffer starts empty |
| CoreProximityAlertBuffer.ProximityAlertBuffer.Buffer | TorchAlert/TorchAlert.Core.Proximity/ProximityAlertBuffer.cs:24-40 | the emitted alerts and the new buffer are those of the reference `Call` keyed by (steam id, offender grid id) |
| ProximityAlertBuffer.ProximityAlertBuffer.constructor | TorchAlert/TorchAlert.Proximity/ProximityAlertBuffer.cs:19-23 | the buffer starts empty |
| ProximityAlertBuffer.ProximityAlertBuffer.Buffer | TorchAlert/TorchAlert.Proximity/ProximityAlertBuffer.cs:25-43 | the emitted alerts and the new buffer are those of the reference `Call` keyed by (defender grid id, offender grid id) |
| CoreAlertCreator.AlertsFor | TorchAlert/TorchAlert.Core/ProximityAlertCreator.cs:52-55 | one alert per steam id, in order, each the proximity's alert for that recipient |
| CoreAlertCreator.GetProximityAlerts | TorchAlert/TorchAlert.Core/ProximityAlertCreator.cs:39-56 | nothing when both faction ids are set and the relation is not `Enemies`; otherwise one alert per defender steam id, in order, carrying the defender's grid id and name, the distance and the offender |
| CoreAlertCreator.GeneratedMembers | TorchAlert/TorchAlert.Core/ProximityAlertCreator.cs:39-56 | an alert comes out of a proximity exactly when the pair is hostile and it is the proximity's alert for one of the defender's steam ids |
| CoreAlertCreator.GeneratedKeys | TorchAlert/TorchAlert.Core/ProximityAlertCreator.cs:28 | every generated alert is stored at (its steam id, its proximity's offender grid id) |
| CoreAlertCreator.Collect | TorchAlert/TorchAlert.Core/ProximityAlertCreator.cs:20-29 | the inner loop puts each generated alert into its recipient's row at the offender grid id, later ones replacing earlier ones |
| CoreAlertCreator.CreateAlerts | TorchAlert/TorchAlert.Core/ProximityAlertCreator.cs:14-37 | yields every cell of the collapsed nested dictionary exactly once, so at most one alert per (steam id, offender grid id) |
| CoreAlertCreator.CreatedAlertOrigin | TorchAlert/TorchAlert.Core/ProximityAlertCreator.cs:19-29 | every created alert is the alert of some hostile proximity with that offender, for one of its defender steam ids |
| CoreAlertCreator.LastProximityWins | TorchAlert/TorchAlert.Core/ProximityAlertCreator.cs:28 | among the hostile proximities that name a (steam id, offender grid id) pair, the last one decides the alert |
| CoreProximityAlertCreator.AlertsFor | TorchAlert/TorchAlert.Core.Proximity/ProximityAlertCreator.cs:48-51 | one alert per steam id, in order |
| CoreProximityAlertCreator.GetProximityAlerts | TorchAlert/TorchAlert.Core.Proximity/ProximityAlertCreator.cs:34-52 | nothing for equal faction ids, or for set faction ids whose relation is not `Enemies`; otherwise one alert per defender steam id, in order |
| CoreProximityAlertCreator.SameFactionIgnoresRelation | TorchAlert/TorchAlert.Core.Proximity/ProximityAlertCreator.cs:42 | two grids of one faction yield nothing whatever relation the game reports |
| CoreProximityAlertCreator.GeneratedMembers | TorchAlert/TorchAlert.Core.Proximity/ProximityAlertCreator.cs:34-52 | an alert comes out exactly when the pair is hostile and it is the proximity's alert for one of the defender's steam ids |
| CoreProximityAlertCreator.GeneratedKeys | TorchAlert/TorchAlert.Core.Proximity/ProximityAlertCreator.cs:23 | every generated alert is stored at (its steam id, its proximity's offender grid id) |
| CoreProximityAlertCreator.Collect | TorchAlert/TorchAlert.Core.Proximity/ProximityAlertCreator.cs:21-24 | `AddOrReplace` for each generated alert: its recipient's row at the offender grid id, later ones replacing earlier ones |
| CoreProximityAlertCreator.CreateAlerts | TorchAlert/TorchAlert.Core.Proximity/ProximityAlertCreator.cs:15-32 | yields every cell of the collapsed nested dictionary exactly once |
| CoreProximityAlertCreator.CreatedAlertOrigin | TorchAlert/TorchAlert.Core.Proximity/ProximityAlertCreator.cs:20-24 | every created alert is the alert of some hostile proximity with that offender, for one of its defender steam ids |
| CoreProximityAlertCreator.LastProximityWins | TorchAlert/TorchAlert.Core.Proximity/ProximityAlertCreator.cs:23 | the last hostile proximity naming a (steam id, offender grid id) pair decides the alert |
| AlarmCreator.AlarmsFor | TorchAlarm/TorchAlarm.Core/ProximityAlarmCreator.cs:52-55 | one alarm per steam id, in order |
| AlarmCreator.GetProximityAlarms | TorchAlarm/TorchAlarm.Core/ProximityAlarmCreator.cs:39-56 | nothing when both faction ids are set and the relation is not `Enemies`; otherwise one alarm per defender steam id, in order |
| AlarmCreator.GeneratedMembers | TorchAlarm/TorchAlarm.Core/ProximityAlarmCreator.cs:39-56 | an alarm comes out exactly when the pair is hostile and it is the proximity's alarm for one of the defender's steam ids |
| AlarmCreator.GeneratedKeys | TorchAlarm/TorchAlarm.Core/ProximityAlarmCreator.cs:28 | every generated alarm is stored at (its steam id, its proximity's offender grid id) |
| AlarmCreator.Collect | TorchAlarm/TorchAlarm.Core/ProximityAlarmCreator.cs:20-29 | the inner loop puts each generated alarm into its recipient's row at the offender grid id, later ones replacing earlier ones |
| AlarmCreator.CreateAlarms | TorchAlarm/TorchAlarm.Core/ProximityAlarmCreator.cs:14-37 | yields every cell of the collapsed nested dictionary exactly once |
| AlarmCreator.CreatedAlarmOrigin | TorchAlarm/TorchAlarm.Core/ProximityAlarmCreator.cs:19-29 | every created alarm is the alarm of some hostile proximity with that offender, for one of its defender steam ids |
| AlarmCreator.LastProximityWins | TorchAlarm/TorchAlarm.Core/ProximityAlarmCreator.cs:28 | the last hostile proximity naming a (steam id, offender grid id) pair decides the alarm |
| Collapsing.FillFromConcat | TorchAlert/TorchAlert.Core/ProximityAlertCreator.cs:19-29 | putting two batches one after the other is putting their concatenation |
| Collapsing.FillFromUntouched | TorchAlert/TorchAlert.Core/ProximityAlertCreator.cs:22-28 | a (steam id, grid id) pair that no put is about keeps its cell, or its absence |
| Collapsing.FillFromLastWins | TorchAlert/TorchAlert.Core/ProximityAlertCreator.cs:28 | the last put about a pair decides its cell |
| Collapsing.FillFromCells | TorchAlert/TorchAlert.Core/ProximityAlertCreator.cs:22-28 | a pair has a cell afterwards exactly when it had one before or some put is about it, and the cell holds the old value or some put's value |
| Collapsing.FillFromUniform | TorchAlert/TorchAlert.Core/ProximityAlertCreator.cs:28 | a batch whose puts for one pair all carry the same value leaves that value in the cell |
| Collapsing.Enumerate | TorchAlert/TorchAlert.Core/ProximityAlertCreator.cs:31-36 | the nested `foreach` over rows and cells yields every cell once: nothing else, nothing missing, no pair twice |
| Collapsing.EnumerateRow | TorchAlert/TorchAlert.Core/ProximityAlertCreator.cs:32-36 | the inner `foreach` yields every cell of one row once and nothing from other rows |
| Collapsing.EntryOrigin | TorchAlert/TorchAlert.Core/ProximityAlertCreator.cs:19-21 | every put of the nested loop is a value generated for its row by a proximity of its column |
| Collapsing.CollapseOrigin | TorchAlert/TorchAlert.Core/ProximityAlertCreator.cs:19-29 | every cell of the collapsed table holds a value generated for its row by a proximity of its column |
| Collapsing.CollapseConsistent | TorchAlert/TorchAlert.Core/ProximityAlertCreator.cs:19-29 | when every generated value's key is its recipient and its proximity's column, every cell sits at its own value's key |
| Collapsing.CollapseLastWins | TorchAlert/TorchAlert.Core/ProximityAlertCreator.cs:19-29 | a value generated by the last proximity of its column for its recipient is that cell's value |
| Collapsing.Store | TorchAlert/TorchAlert.Core/ProximityAlertCreator.cs:22-28 | `TryGetValue` on the outer dictionary, creating an empty row when missing, then setting the cell, is the reference `Put` |
| Collapsing.PutConsistent | TorchAlert/TorchAlert.Core/ProximityAlertCreator.cs:28 | setting a cell to a value whose key is the cell's pair keeps every cell at its own key |
| Collapsing.FillFromEntriesStep | TorchAlert/TorchAlert.Core/ProximityAlertCreator.cs:19-21 | one more proximity through the outer loop is its batch of puts on top of the table so far |
| ReportMaker.SteamIdsOfMembers | TorchAlarm.Discord/TorchAlarm.Core/ProximityReportMaker.cs:105-114 | the loop over the members keeps exactly the positive steam ids of the members' players |
| ReportMaker.GetSteamIdsFromFaction | TorchAlarm.Discord/TorchAlarm.Core/ProximityReportMaker.cs:100-115 | none for an unknown faction; otherwise exactly the positive steam ids of the faction's members |
| ReportMaker.ReportsFor | TorchAlarm.Discord/TorchAlarm.Core/ProximityReportMaker.cs:89-97 | one report per steam id, in order, about the defender grid and the offender's faction |
| ReportMaker.GetProximityReports | TorchAlarm.Discord/TorchAlarm.Core/ProximityReportMaker.cs:60-84 | nothing when neither grid is static, for a non-`Enemies` pair of set factions, or when no grid has a faction and is static; otherwise `grid0` defends when it has a faction and is static, else `grid1`, and the reports are the defender overload's |
| ReportMaker.ReportMembers | TorchAlarm.Discord/TorchAlarm.Core/ProximityReportMaker.cs:60-98 | a report comes out exactly when the pair is hostile, some grid can defend, the recipient is a member steam id of the defender's faction, and the report is about that defender and offender |
| ReportMaker.GeneratedKeys | TorchAlarm.Discord/TorchAlarm.Core/ProximityReportMaker.cs:56 | every report of a proximity is stored at (its steam id, the defender's grid id) |
| ReportMaker.ProximityReportMaker.constructor | TorchAlarm.Discord/TorchAlarm.Core/ProximityReportMaker.cs:17-22 | no reports stored |
| ReportMaker.ProximityReportMaker.GetReports | TorchAlarm.Discord/TorchAlarm.Core/ProximityReportMaker.cs:24-31 | yields every stored report exactly once, and changes nothing |
| ReportMaker.ProximityReportMaker.Clear | TorchAlarm.Discord/TorchAlarm.Core/ProximityReportMaker.cs:33-36 | no reports stored |
| ReportMaker.ProximityReportMaker.Add | TorchAlarm.Discord/TorchAlarm.Core/ProximityReportMaker.cs:46-58 | each report of the proximity replaces whatever is stored at its (steam id, defender grid id); every report stays at its own key |
| ReportMaker.ProximityReportMaker.AddRange | TorchAlarm.Discord/TorchAlarm.Core/ProximityReportMaker.cs:38-44 | `Add` for each proximity in order: the reference collapse of all their reports on top of the old state |
| ReportMaker.KeptReportOrigin | TorchAlarm.Discord/TorchAlarm.Core/ProximityReportMaker.cs:46-98 | every kept report is the report of some hostile proximity with a defending grid, for a member of that grid's faction |
| ReportMaker.LastProximityWins | TorchAlarm.Discord/TorchAlarm.Core/ProximityReportMaker.cs:56 | several offenders near one defender collapse to the last: the last hostile proximity reporting a steam id about a defender grid decides that report |
| Octree.RoundHalfEven | TorchAlarm.Discord/TorchAlarm.Core/Octree.cs:77 | `Math.Round` gives an integer within 0.5 of its argument, and the even one on a tie |
| Octree.GoDeepIndexNeverZero | TorchAlarm.Discord/TorchAlarm.Core/Octree.cs:77-78 | as written, the axis index is at least 1, the `index == 0` branch is dead, the nested position is always `(normal - 0.5) * 2`, and the index is 1 exactly when `2 * normal < 1.5` |
| Octree.SlotAtLeastSeven | TorchAlarm.Discord/TorchAlarm.Core/Octree.cs:62-65 | as written, the child slot `x + 2y + 4z` is at least 7, and below 8 exactly when all three axis indices are 1 |
| Octree.GoDeepCounterexample | TorchAlarm.Discord/TorchAlarm.Core/Octree.cs:62-78 | the position (0.9, 0.9, 0.9) gives slot 14, past the eight children; the origin goes to slot 7 at nested position -1 |
| Octree.LeafIndex | TorchAlarm.Discord/TorchAlarm.Core/Octree.cs:54-73 | for a position whose slots stay in range at every level, the leaf `Add` reaches is one of the 8^depth leaves |
| Octree.OnlyLastLeaf | TorchAlarm.Discord/TorchAlarm.Core/Octree.cs:54-78 | as written, whenever `Add` stays inside the arrays it reaches the last leaf, whatever the position |
| Octree.GoDeepIntended | TorchAlarm.Discord/TorchAlarm.Core/Octree.cs:75-80 | for a coordinate in [0, 1], the index is 0 or 1, the nested position is in [0, 1], and the coordinate is recovered as `(index + nested) / 2` |
| Octree.IntendedSlotInRange | TorchAlarm.Discord/TorchAlarm.Core/Octree.cs:62-70 | with the intended descent, every normal position picks one of the eight children and its nested position is normal again |
| Octree.IntendedLeafIndex | TorchAlarm.Discord/TorchAlarm.Core/Octree.cs:54-73 | with the intended descent, every normal position reaches one of the 8^depth leaves, at every depth |
| Octree.ElementList.constructor | TorchAlarm.Discord/TorchAlarm.Core/Octree.cs:20 | a leaf list starts empty |
| Octree.Octree.constructor | TorchAlarm.Discord/TorchAlarm.Core/Octree.cs:15-30 | the node has the given depth and the tree shape: 8^depth leaf lists, all new and empty, none shared |
| Octree.Octree.NewChildren | TorchAlarm.Discord/TorchAlarm.Core/Octree.cs:24-28 | eight new children of depth one less, each with the tree shape; together they hold 8^depth distinct new empty leaf lists, child by child |
| Octree.Octree.GetElements | TorchAlarm.Discord/TorchAlarm.Core/Octree.cs:32-37 | enumerating the tree yields the elements of the leaf lists, leaf by leaf in child order |
| Octree.Octree.GetLeaves | TorchAlarm.Discord/TorchAlarm.Core/Octree.cs:44-52 | one collection per leaf list, in child order, 8^depth of them, each holding that leaf's elements |
| Octree.Octree.Add | TorchAlarm.Discord/TorchAlarm.Core/Octree.cs:54-73 | the element is appended to the leaf the descent reaches and nothing else is modified |
| Octree.AddOneElement | TorchAlarm.Discord/TorchAlarm.Core/Octree.cs:58 | appending an element to one leaf adds exactly that element to the enumeration |
| Octree.AddAndObserve | TorchAlarm.Discord/TorchAlarm.Core/Octree.cs:54-73 | after `Add` the tree keeps its shape, the leaves are the old ones with the element appended to the reached leaf only, and the enumeration gains exactly that element |
| Octree.Octree.AddIntended | TorchAlarm.Discord/TorchAlarm.Core/Octree.cs:54-80 | with the intended descent, every normal position reaches one of the 8^depth leaves, which gains the element at its end, and nothing else is modified |
| LinkDb.ParseLine | Discord.Torch/Discord.Torch/DiscordIdentityLinkDb.cs:37-41 | a line is accepted only when it holds exactly one tab |
| LinkDb.ParseFormatLine | Discord.Torch/Discord.Torch/DiscordIdentityLinkDb.cs:37-55 | every line `Write` emits for an entry is read back as that same pair |
| LinkDb.LineNeedsOneTab | Discord.Torch/Discord.Torch/DiscordIdentityLinkDb.cs:37-39 | a line with no tab or with more than one is skipped |
| LinkDb.ParseAll | Discord.Torch/Discord.Torch/DiscordIdentityLinkDb.cs:35-41 | the file is parsed line by line, one result per line |
| LinkDb.LoadEntriesAppend | Discord.Torch/Discord.Torch/DiscordIdentityLinkDb.cs:35-46 | an accepted line overwrites both directions for its pair; a skipped line changes nothing |
| LinkDb.LoadSteamToDiscord | Discord.Torch/Discord.Torch/DiscordIdentityLinkDb.cs:35-46 | a steam id is loaded exactly when some accepted line carries it, and it maps to the discord id of the last such line |
| LinkDb.LoadDiscordToSteam | Discord.Torch/Discord.Torch/DiscordIdentityLinkDb.cs:35-46 | a discord id is loaded exactly when some accepted line carries it, and it maps to the steam id of the last such line |
| LinkDb.ParseAllAppend | Discord.Torch/Discord.Torch/DiscordIdentityLinkDb.cs:35-37 | parsing one more line appends that line's result |
| LinkDb.ParseFormatAll | Discord.Torch/Discord.Torch/DiscordIdentityLinkDb.cs:52-57 | the lines written for the entries, in enumeration order, parse back as those entries |
| LinkDb.LoadWritten | Discord.Torch/Discord.Torch/DiscordIdentityLinkDb.cs:35-57 | loading the written entries gives exactly the enumerated steam ids with their discord ids, and a reverse map from each written discord id to a steam id linked to it |
| LinkDb.WrittenRoundTrip | Discord.Torch/Discord.Torch/DiscordIdentityLinkDb.cs:35-57 | when every key is written once, loading restores the steam-to-discord map exactly, and the reverse map holds exactly its values |
| LinkDb.WriteReadRoundTrip | Discord.Torch/Discord.Torch/DiscordIdentityLinkDb.cs:24-59 | `Write` then `Read` restores the steam-to-discord map exactly; the reverse map then holds exactly its values, each mapped to a steam id linked to it |
| LinkDb.DiscordIdentityLinkDb.constructor | Discord.Torch/Discord.Torch/DiscordIdentityLinkDb.cs:16-21 | both maps start empty and the file is the given one |
| LinkDb.DiscordIdentityLinkDb.Read | Discord.Torch/Discord.Torch/DiscordIdentityLinkDb.cs:24-47 | both maps are cleared; a missing file is created empty; otherwise the maps are those the file's lines load |
| LinkDb.DiscordIdentityLinkDb.Write | Discord.Torch/Discord.Torch/DiscordIdentityLinkDb.cs:50-60 | the file becomes one line per entry of the steam-to-discord map, every key once, in the dictionary's enumeration order |
| LinkDb.DiscordIdentityLinkDb.Update | Discord.Torch/Discord.Torch/DiscordIdentityLinkDb.cs:63-67 | both directions are overwritten, so each id now looks up the other, and no key is lost |
| LinkDb.DiscordIdentityLinkDb.TryGetDiscordId | Discord.Torch/Discord.Torch/DiscordIdentityLinkDb.cs:70-73 | succeeds exactly when the steam id is linked, with its discord id, and yields 0 otherwise |
| LinkDb.DiscordIdentityLinkDb.TryGetSteamId | Discord.Torch/Discord.Torch/DiscordIdentityLinkDb.cs:76-79 | succeeds exactly when the discord id is linked, with its steam id, and yields 0 otherwise |
| LinkDb.DiscordIdentityLinkDb.HasDiscordLink | Discord.Torch/Discord.Torch/DiscordIdentityLinkDb.cs:82-85 | holds exactly when `TryGetDiscordId` succeeds |
| LinkDb.DiscordIdentityLinkDb.WriteThenRead | Discord.Torch/Discord.Torch/DiscordIdentityLinkDb.cs:24-60 | writing then reading leaves the steam-to-discord map as it was and rebuilds the reverse map without stale discord ids |
| LinkDb.StaleEntryStays | Discord.Torch/Discord.Torch/DiscordIdentityLinkDb.cs:63-67 | relinking a steam id to a new discord id leaves the old discord id looking up that steam id |
| LinkCodes.NextCode | Discord.Torch/Discord.Torch/DiscordIdentityLinker.cs:36 | the 32-bit post-increment moves the counter from one code to the next, wrapping at `int.MaxValue` |
| LinkCodes.WrapDifference | Discord.Torch/Discord.Torch/DiscordIdentityLinker.cs:36 | two 32-bit counter values that agree modulo 2^32 are equal |
| LinkCodes.CodesDistinct | Discord.Torch/Discord.Torch/DiscordIdentityLinker.cs:36-37 | codes handed out by one linker differ until the counter has gone all the way round the 32-bit range |
| IdentityLinker.DiscordIdentityLinker.constructor | Discord.Torch/Discord.Torch/DiscordIdentityLinker.cs:16-21 | no outstanding codes, and the counter starts at the drawn value, below `short.MaxValue / 2` |
| IdentityLinker.DiscordIdentityLinker.TryGetSteamId | Discord.Torch/Discord.Torch/DiscordIdentityLinker.cs:23-26 | succeeds exactly when the db links the discord id, with the db's steam id |
| IdentityLinker.DiscordIdentityLinker.TryGetDiscordId | Discord.Torch/Discord.Torch/DiscordIdentityLinker.cs:28-31 | succeeds exactly when the db links the steam id, with the db's discord id |
| IdentityLinker.DiscordIdentityLinker.GenerateLinkId | Discord.Torch/Discord.Torch/DiscordIdentityLinker.cs:34-43 | the code is the old counter, the counter moves on by one with 32-bit wrap-around, and the code now maps to the steam id while other codes are kept |
| IdentityLinker.DiscordIdentityLinker.TryMakeLink | Discord.Torch/Discord.Torch/DiscordIdentityLinker.cs:46-57 | fails with 0 and no change exactly for an unknown code; a known code links its steam id and the discord id both ways in the db, writes the file so that it loads back the same map, and is consumed |
| IdentityLinker.GenerateTwice | Discord.Torch/Discord.Torch/DiscordIdentityLinker.cs:34-43 | two codes generated in a row are consecutive and distinct, and both stay redeemable |
| IdentityLinker.RedeemTwice | Discord.Torch/Discord.Torch/DiscordIdentityLinker.cs:46-57 | a code is good for one link only: redeeming it a second time fails |
| AlarmIdentityLinker.IdentityLinkStore.MakeLink | TorchAlarm/TorchAlarm.Discord/DiscordIdentityLinker.cs:66 | in the two-map store this model assumes for the SQLite db (see Left out): after linking, the steam id finds the discord id and the discord id finds the steam id, and each direction is otherwise unchanged |
| AlarmIdentityLinker.DiscordIdentityLinker.constructor | TorchAlarm/TorchAlarm.Discord/DiscordIdentityLinker.cs:16-21 | no outstanding codes, and the counter starts at the drawn value, below `int.MaxValue / 2` |
| AlarmIdentityLinker.DiscordIdentityLinker.TryGetLinkedSteamUser | TorchAlarm/TorchAlarm.Discord/DiscordIdentityLinker.cs:24-34 | succeeds exactly when the store links the discord id, with that steam id; otherwise the out value is 0 |
| AlarmIdentityLinker.DiscordIdentityLinker.TryGetLinkedDiscordId | TorchAlarm/TorchAlarm.Discord/DiscordIdentityLinker.cs:37-47 | succeeds exactly when the store links the steam id, with that discord id; otherwise the out value is 0 |
| AlarmIdentityLinker.DiscordIdentityLinker.GenerateLinkId | TorchAlarm/TorchAlarm.Discord/DiscordIdentityLinker.cs:50-59 | the code is the old counter, the counter moves on by one with 32-bit wrap-around, and the code now maps to the steam id |
| AlarmIdentityLinker.DiscordIdentityLinker.TryMakeLink | TorchAlarm/TorchAlarm.Discord/DiscordIdentityLinker.cs:62-71 | fails with 0 and no change exactly for an unknown code; a known code hands back its steam id and calls `MakeLink`, which in the assumed two-map store links the two ids both ways; the code is never consumed |
| AlarmIdentityLinker.RedeemTwice | TorchAlarm/TorchAlarm.Discord/DiscordIdentityLinker.cs:62-71 | since codes are not consumed, a second discord account redeems the same code: both redemptions succeed, both hand back the code's steam id, and the code stays outstanding |
| AlarmIdentityLinker.RedeemTwiceInTwoMapStore | TorchAlarm/TorchAlarm.Discord/DiscordIdentityLinker.cs:62-71 | in the assumed two-map store only: after the two redemptions the steam id's forward link goes to the second account, and both accounts find the steam id |
| MuteRegistry.Muted | TorchAlert/TorchAlert/TorchAlertConfig.cs:132-140 | after `Mute` the id is in the list, no other id's membership changes, nothing is lost, and at most one entry is added |
| MuteRegistry.Unmuted | TorchAlert/TorchAlert/TorchAlertConfig.cs:142-149 | `Unmute` removes one occurrence of the id, when there is one, and changes no other id's membership |
| MuteRegistry.MuteIdempotent | TorchAlert/TorchAlert/TorchAlertConfig.cs:132-140 | muting twice is muting once |
| MuteRegistry.MuteKeepsNoDuplicates | TorchAlert/TorchAlert/TorchAlertConfig.cs:132-140 | `Mute` never creates a duplicate |
| MuteRegistry.UnmuteOnNoDuplicates | TorchAlert/TorchAlert/TorchAlertConfig.cs:142-149 | on a duplicate-free list, `Unmute` takes the id out for good and the list stays duplicate-free |
| MuteRegistry.UnmuteKeepsDuplicate | TorchAlert/TorchAlert/TorchAlertConfig.cs:63-68 | a list assigned with the id twice keeps it muted after one `Unmute` |
| TorchAlertConfig.TorchAlertConfig.constructor | TorchAlert/TorchAlert/TorchAlertConfig.cs:31 | the mute list starts empty and no change has been announced |
| TorchAlertConfig.TorchAlertConfig.SetMutedSteamIds | TorchAlert/TorchAlert/TorchAlertConfig.cs:63-68 | the setter takes any list, duplicates included |
| TorchAlertConfig.TorchAlertConfig.IsMuted | TorchAlert/TorchAlert/TorchAlertConfig.cs:127-130 | holds exactly when the id occurs in the list |
| TorchAlertConfig.TorchAlertConfig.Mute | TorchAlert/TorchAlert/TorchAlertConfig.cs:132-140 | the list becomes the muted list, the id is muted, and a change is announced exactly when the id was not yet in the list |
| TorchAlertConfig.TorchAlertConfig.Unmute | TorchAlert/TorchAlert/TorchAlertConfig.cs:142-149 | the list becomes the unmuted list, and a change is announced exactly when the id was in the list |
| TorchAlarmConfig.TorchAlarmConfig.constructor | TorchAlarm/TorchAlarm/TorchAlarmConfig.cs:28 | the mute list starts unset and no change has been announced |
| TorchAlarmConfig.TorchAlarmConfig.SetMutedSteamIds | TorchAlarm/TorchAlarm/TorchAlarmConfig.cs:83-89 | the setter takes any list, or none |
| TorchAlarmConfig.TorchAlarmConfig.IsMuted | TorchAlarm/TorchAlarm/TorchAlarmConfig.cs:115-118 | holds exactly when the id occurs in the list |
| TorchAlarmConfig.TorchAlarmConfig.Mute | TorchAlarm/TorchAlarm/TorchAlarmConfig.cs:120-128 | the list becomes the muted list, the id is muted, and a change is announced exactly when the id was not yet in the list |
| TorchAlarmConfig.TorchAlarmConfig.Unmute | TorchAlarm/TorchAlarm/TorchAlarmConfig.cs:130-137 | the list becomes the unmuted list, and a change is announced exactly when the id was in the list |
| DiscordTorchAlarmConfig.TorchAlarmConfig.constructor | TorchAlarm.Discord/TorchAlarm/TorchAlarmConfig.cs:19 | the mute list starts unset and no change has been announced |
| DiscordTorchAlarmConfig.TorchAlarmConfig.SetMutedSteamIds | TorchAlarm.Discord/TorchAlarm/TorchAlarmConfig.cs:53-59 | the setter takes any list, or none |
| DiscordTorchAlarmConfig.TorchAlarmConfig.IsMuted | TorchAlarm.Discord/TorchAlarm/TorchAlarmConfig.cs:61-64 | holds exactly when the id occurs in the list |
| DiscordTorchAlarmConfig.TorchAlarmConfig.Mute | TorchAlarm.Discord/TorchAlarm/TorchAlarmConfig.cs:66-73 | the list becomes the muted list, the id is muted, and a change is announced exactly when the id was not yet in the list |
| DiscordTorchAlarmConfig.TorchAlarmConfig.Unmute | TorchAlarm.Discord/TorchAlarm/TorchAlarmConfig.cs:75-81 | the list becomes the unmuted list, and a change is announced exactly when the id was in the list |
| MuteCommands.Classify | TorchAlert/TorchAlert.Core/TorchAlert.cs:150-165 | a message unmutes exactly when it contains "start" or "unmute", mutes exactly when it contains neither but contains "stop" or "mute", and is left alone otherwise |
| MuteCommands.UnmuteContainsMute | TorchAlert/TorchAlert.Core/TorchAlert.cs:150-157 | a message containing "unmute" also passes the mute test, and only the order of the tests makes it unmute |
| MuteCommands.StartWinsOverStop | TorchAlert/TorchAlert.Core/TorchAlert.cs:150-157 | a message containing both "start" and "stop" unmutes |
| MuteCommands.MuteAloneMutes | TorchAlert/TorchAlert.Core/TorchAlert.cs:157-162 | the message "mute" mutes |
| TorchAlertResponder.TryRespond | TorchAlert/TorchAlert.Core/TorchAlert.cs:146-166 | handled exactly when the message is a command; an unmute command unmutes the sender and answers "Alerts started by", a mute command mutes and answers "Alerts stopped by", anything else leaves the config alone with no response |
| TorchAlertPluginResponder.TryRespond | TorchAlert/TorchAlert/TorchAlertPlugin.cs:225-245 | handled exactly when the message is a command; an unmute command unmutes the sender and answers "Alerts started by", a mute command mutes and answers "Alerts stopped by", anything else leaves the config alone with no response |
| TorchAlertPluginResponder.UnmuteNeverMutes | TorchAlert/TorchAlert/TorchAlertPlugin.cs:229-234 | on a duplicate-free mute list, sending "unmute" leaves the sender unmuted |
| Mentions.DigitRun | Discord.Torch/Discord.Torch/DiscordUtils.cs:17 | the greedy `\d+`: the length of the longest run of leading digits |
| Mentions.MentionLength | Discord.Torch/Discord.Torch/DiscordUtils.cs:17 | a match of `<@!\d+>` at the front is `<@!`, at least one digit and `>`, and it is the only possible match there |
| Mentions.StripMentions | Discord.Torch/Discord.Torch/DiscordUtils.cs:17 | the replacement never lengthens the text |
| Mentions.StripWithoutMarker | Discord.Torch/Discord.Torch/DiscordUtils.cs:17 | a message without `<@!` is left as it is |
| Mentions.MentionMatches | Discord.Torch/Discord.Torch/DiscordUtils.cs:17 | a mention `<@!id>` in front of any text is matched exactly, whatever follows |
| Mentions.StripLeadingMention | Discord.Torch/Discord.Torch/DiscordUtils.cs:17 | a leading mention is deleted and the rest is processed on its own |
| Mentions.StripIsSubsequence | Discord.Torch/Discord.Torch/DiscordUtils.cs:17 | the characters that survive keep their order |
| Mentions.KeepFirstChar | Discord.Torch/Discord.Torch/DiscordUtils.cs:17 | a character that does not start `<@!` is kept |
| Mentions.NoDigitNoMention | Discord.Torch/Discord.Torch/DiscordUtils.cs:17 | without a digit after `<@!` there is no match |
| Mentions.MentionNeedsBang | Discord.Torch/Discord.Torch/DiscordUtils.cs:17 | the mention form without `!` (`<@123>`) is kept |
| Mentions.MentionNeedsDigit | Discord.Torch/Discord.Torch/DiscordUtils.cs:17 | `<@!>` is kept |
| Mentions.NoOpenBracket | Discord.Torch/Discord.Torch/DiscordUtils.cs:17 | text without `<` holds no `<@!` and is left as it is |
| Mentions.OnePass | Discord.Torch/Discord.Torch/DiscordUtils.cs:17 | the replacement makes one pass: `<@` before a deleted mention joins the text after it into a new mention that stays |
| Mentions.StripCases | Discord.Torch/Discord.Torch/DiscordUtils.cs:17 | a message without `<@!` is unchanged, and one that starts with a mention loses it |
| DiscordTorchUtils.RemoveMentionPrefix | Discord.Torch/Discord.Torch/DiscordUtils.cs:15-18 | the result neither starts nor ends with white space; a message without `<@!` is only trimmed; a leading mention is deleted before trimming |
| TorchAlertDiscordUtils.RemoveMentionPrefix | TorchAlert/TorchAlert.Discord/DiscordUtils.cs:16-19 | the result neither starts nor ends with white space; a message without `<@!` is only trimmed; a leading mention is deleted before trimming |
| Text.TrimStart | Discord.Torch/Discord.Torch/DiscordUtils.cs:17 | a suffix of the text: everything before it is white and it does not start with white |
| Text.TrimEnd | Discord.Torch/Discord.Torch/DiscordUtils.cs:17 | a prefix of the text: everything after it is white and it does not end with white |
| Text.Trim | Discord.Torch/Discord.Torch/DiscordUtils.cs:17 | `Trim()` keeps a middle slice of the text with only white before and after it, and the slice neither starts nor ends with white |
| Text.TrimUnchanged | Discord.Torch/Discord.Torch/DiscordUtils.cs:17 | a text whose ends are not white is its own trim |
| Text.Decimal | Discord.Torch/Discord.Torch/DiscordIdentityLinkDb.cs:55 | an id is formatted as at least one decimal digit, denoting the id, without leading zeros |
| Text.ParseULong | Discord.Torch/Discord.Torch/DiscordIdentityLinkDb.cs:40-41 | `ulong.TryParse` accepts only text holding a digit |
| Text.ParseDecimal | Discord.Torch/Discord.Torch/DiscordIdentityLinkDb.cs:40-55 | every formatted 64-bit id parses back as itself |
| Text.ParseDecimalOverflow | Discord.Torch/Discord.Torch/DiscordIdentityLinkDb.cs:40-41 | a decimal number of 2^64 or more is refused |
| Text.ParseMinus | Discord.Torch/Discord.Torch/DiscordIdentityLinkDb.cs:40-41 | a minus sign is accepted only in front of zero |
| Text.Split | Discord.Torch/Discord.Torch/DiscordIdentityLinkDb.cs:37 | `Split` gives at least one piece, and no piece holds the separator |
| Text.SplitCount | Discord.Torch/Discord.Torch/DiscordIdentityLinkDb.cs:37-39 | there is one piece more than there are separators |
| Text.SplitJoin | Discord.Torch/Discord.Torch/DiscordIdentityLinkDb.cs:37 | joining the pieces with the separator gives the text back |
| Text.SplitNoSeparator | Discord.Torch/Discord.Torch/DiscordIdentityLinkDb.cs:37 | a text without the separator is one piece |
| Text.SplitFirstPiece | Discord.Torch/Discord.Torch/DiscordIdentityLinkDb.cs:37 | a separator-free prefix followed by the separator is the first piece, and the rest is split on its own |
| Templates.ReplaceWithoutPattern | TorchAlert/TorchAlert.Core/AlertDiscordClient.cs:61-66 | a format without the placeholder comes back unchanged |
| Templates.ReplaceBySelf | TorchAlert/TorchAlert.Core/AlertDiscordClient.cs:61-66 | replacing a placeholder by itself changes nothing |
| Templates.ReplaceSkipsPrefix | TorchAlert/TorchAlert.Core/AlertDiscordClient.cs:61-66 | text without the placeholder's first character is copied as it is |
| Templates.ReplaceWithoutFirstChar | TorchAlert/TorchAlert.Core/AlertDiscordClient.cs:61-66 | a value without `$` survives every later replacement unchanged |
| Templates.ReplaceFillsHole | TorchAlert/TorchAlert.Core/AlertDiscordClient.cs:61-66 | a placeholder between texts without `$` is filled with the value and nothing else changes |
| Templates.OtherPlaceholderKept | TorchAlert/TorchAlert.Core/AlertDiscordClient.cs:61-66 | a different placeholder is left alone by a replacement |
| Templates.AppendLinesSnoc | TorchAlert/TorchAlert.Core/AlertDiscordClient.cs:71-77 | each `AppendLine` adds the line and a line break at the end |
| Templates.Terminated | TorchAlert/TorchAlert.Core/AlertDiscordClient.cs:71-77 | each line of the message with the carriage return of its line break |
| Templates.AppendLinesFirstPiece | TorchAlert/TorchAlert.Core/AlertDiscordClient.cs:71-77 | the first line, up to the `'\n'` of its line break, is the first piece of the message |
| Templates.AppendLinesSplit | TorchAlert/TorchAlert.Core/AlertDiscordClient.cs:71-77 | splitting the message at `'\n'` gives the lines back, each with its `'\r'`, and an empty piece after the last line break |
| AlertDiscordClient.Lines | TorchAlert/TorchAlert.Core/AlertDiscordClient.cs:59-69 | one line per alert, in order, each the alert's line |
| AlertDiscordClient.LinesNext | TorchAlert/TorchAlert.Core/AlertDiscordClient.cs:59-69 | one more alert adds its line |
| AlertDiscordClient.Entries | TorchAlert/TorchAlert.Core/AlertDiscordClient.cs:36-40 | one `(steamId, alert)` entry per alert, in order |
| AlertDiscordClient.SendAt | TorchAlert/TorchAlert.Core/AlertDiscordClient.cs:42-53 | the i-th attempt goes to the i-th player grouped, with the message built from that player's list |
| AlertDiscordClient.GroupOfPlayer | TorchAlert/TorchAlert.Core/AlertDiscordClient.cs:35-40 | the alerts grouped under a player are exactly that player's alerts, in input order |
| AlertDiscordClient.OneMessagePerPlayer | TorchAlert/TorchAlert.Core/AlertDiscordClient.cs:30-54 | one attempt per distinct player, in order of first appearance, each carrying the message built from that player's alerts alone and failing exactly where the send fails |
| AlertDiscordClient.NoAlertsNoSends | TorchAlert/TorchAlert.Core/AlertDiscordClient.cs:32 | with no alerts nothing is sent |
| AlertDiscordClient.LineWithoutPlaceholders | TorchAlert/TorchAlert.Core/AlertDiscordClient.cs:61-66 | a format without `$` is the line for every alert |
| AlertDiscordClient.OwnerTail | TorchAlert/TorchAlert.Core/AlertDiscordClient.cs:65-66 | the last two replacements turn the bare owner placeholder into the owner text |
| AlertDiscordClient.OwnerPlaceholder | TorchAlert/TorchAlert.Core/AlertDiscordClient.cs:61-66 | `${owner_name}` alone becomes the owner's name, and `<none>` when there is none |
| AlertDiscordClient.OursKeptByDistance | TorchAlert/TorchAlert.Core/AlertDiscordClient.cs:62-63 | replacing `${distance}` leaves `${grid_name_ours}` alone |
| AlertDiscordClient.OwnerKeptByTheirs | TorchAlert/TorchAlert.Core/AlertDiscordClient.cs:64-65 | replacing `${grid_name_theirs}` leaves `${owner_name}` alone |
| AlertDiscordClient.EarlierValueRewritten | TorchAlert/TorchAlert.Core/AlertDiscordClient.cs:61-66 | a placeholder inside an earlier value is replaced too: a grid of ours named `${owner_name}` shows the offender's owner |
| AlertDiscordClient.MessageHoldsDistinctLines | TorchAlert/TorchAlert.Core/AlertDiscordClient.cs:56-78 | split at line breaks, the message gives back each distinct line exactly once, in order of first appearance, and every alert's line is among them |
| AlertDiscordClient.Config.constructor | TorchAlert/TorchAlert.Core/AlertDiscordClient.cs:15-18 | the configuration holds the given `ProximityAlertFormat`; its field stays assignable, as the setter at TorchAlert/TorchAlert/TorchAlertConfig.cs:79-85 allows |
| AlertDiscordClient.AlertDiscordClient.constructor | TorchAlert/TorchAlert.Core/AlertDiscordClient.cs:24-28 | the client keeps a reference to the configuration |
| AlertDiscordClient.AlertDiscordClient.SendProximityAlert | TorchAlert/TorchAlert.Core/AlertDiscordClient.cs:30-54 | nothing is sent for no alerts; otherwise the attempts are one message per player, as the grouping gives them, each made with the format configured at the time of the call, a failed send being caught |
| AlertDiscordClient.AlertDiscordClient.GroupBySteamId | TorchAlert/TorchAlert.Core/AlertDiscordClient.cs:35-40 | the loop builds the per-player lists, players in order of first appearance |
| AlertDiscordClient.AlertDiscordClient.MakeProximityAlertMessage | TorchAlert/TorchAlert.Core/AlertDiscordClient.cs:56-78 | the message is the distinct lines, formatted with the format configured at the time of the call, each followed by a line break |
| DiscordAlertClient.Lines | TorchAlert/TorchAlert.Discord/DiscordAlertClient.cs:217-228 | one line per alert, in order, each the alert's line |
| DiscordAlertClient.LinesNext | TorchAlert/TorchAlert.Discord/DiscordAlertClient.cs:217-228 | one more alert adds its line |
| DiscordAlertClient.LinkedEntries | TorchAlert/TorchAlert.Discord/DiscordAlertClient.cs:186-197 | every entry is an input alert whose player is linked, keyed by that player's discord id, and every linked alert has its entry; unlinked alerts are skipped |
| DiscordAlertClient.SendAt | TorchAlert/TorchAlert.Discord/DiscordAlertClient.cs:199-211 | the i-th attempt goes to the i-th discord user grouped, with the message built from that user's list |
| DiscordAlertClient.MessagesFollowLinks | TorchAlert/TorchAlert.Discord/DiscordAlertClient.cs:180-212 | one attempt per distinct linked discord user, each carrying the message built from exactly the alerts whose player links to that user and failing exactly where the send fails; every linked alert reaches its user |
| DiscordAlertClient.UnlinkedDropped | TorchAlert/TorchAlert.Discord/DiscordAlertClient.cs:188-196 | an alert whose player has no link reaches no one |
| DiscordAlertClient.NoAlertsNoSends | TorchAlert/TorchAlert.Discord/DiscordAlertClient.cs:182 | with no alerts nothing is sent |
| DiscordAlertClient.LineWithoutPlaceholders | TorchAlert/TorchAlert.Discord/DiscordAlertClient.cs:219-225 | a format without `{` is the line for every alert |
| DiscordAlertClient.EarlierValueRewritten | TorchAlert/TorchAlert.Discord/DiscordAlertClient.cs:219-225 | a placeholder inside an earlier value is replaced too: an alert named `{distance}` shows the distance |
| DiscordAlertClient.MessageHoldsEveryLine | TorchAlert/TorchAlert.Discord/DiscordAlertClient.cs:214-231 | split at line breaks, the message gives back one line per alert, duplicates kept, in input order |
| DiscordAlertClient.Config.constructor | TorchAlert/TorchAlert.Discord/DiscordAlertClient.cs:19-26 | the configuration holds the given `AlertFormat`; its field stays assignable |
| DiscordAlertClient.DiscordAlertClient.constructor | TorchAlert/TorchAlert.Discord/DiscordAlertClient.cs:34-48 | the client keeps a reference to the configuration |
| DiscordAlertClient.DiscordAlertClient.SendAlert | TorchAlert/TorchAlert.Discord/DiscordAlertClient.cs:180-212 | nothing is sent for no alerts; otherwise one message per linked discord user, as the grouping gives them, each made with the format configured at the time of the call, a failed send being caught |
| DiscordAlertClient.DiscordAlertClient.GroupByDiscordId | TorchAlert/TorchAlert.Discord/DiscordAlertClient.cs:185-197 | the loop builds the per-user lists from the linked alerts, users in order of first appearance |
| DiscordAlertClient.DiscordAlertClient.MakeAlertMessage | TorchAlert/TorchAlert.Discord/DiscordAlertClient.cs:214-231 | the message is every alert's line, formatted with the format configured at the time of the call, each followed by a line break |
| DiscordAlarmClient.Lines | TorchAlarm/TorchAlarm.Discord/DiscordAlarmClient.cs:197-208 | one line per alarm, in order, each the alarm's line |
| DiscordAlarmClient.LinesNext | TorchAlarm/TorchAlarm.Discord/DiscordAlarmClient.cs:197-208 | one more alarm adds its line |
| DiscordAlarmClient.LinkedEntriesLinked | TorchAlarm/TorchAlarm.Discord/DiscordAlarmClient.cs:162-173 | every entry is an input alarm whose player is linked, keyed by that player's discord id, and every linked alarm has its entry; unlinked alarms are skipped |
| DiscordAlarmClient.OneSendPerUser | TorchAlarm/TorchAlarm.Discord/DiscordAlarmClient.cs:175-180 | each linked discord user is attempted once, in the order the grouping first met them |
| DiscordAlarmClient.SendAt | TorchAlarm/TorchAlarm.Discord/DiscordAlarmClient.cs:175-180 | the i-th attempt goes to the i-th discord user grouped, with the message built from that user's list |
| DiscordAlarmClient.FirstFailureStops | TorchAlarm/TorchAlarm.Discord/DiscordAlarmClient.cs:175-180 | there is no catch: after a failed message the users after it get nothing |
| DiscordAlarmClient.GroupsFollowLinks | TorchAlarm/TorchAlarm.Discord/DiscordAlarmClient.cs:161-173 | each user's list holds exactly the alarms of the players linked to that user, and every linked alarm is in its user's list |
| DiscordAlarmClient.LineWithoutPlaceholders | TorchAlarm/TorchAlarm.Discord/DiscordAlarmClient.cs:199-205 | a format without `{` is the line for every alarm |
| DiscordAlarmClient.FactionTagPlaceholder | TorchAlarm/TorchAlarm.Discord/DiscordAlarmClient.cs:199-205 | `{faction_tag}` alone becomes the offender's faction tag, and `<none>` when there is none |
| DiscordAlarmClient.Config.constructor | TorchAlarm/TorchAlarm.Discord/DiscordAlarmClient.cs:19-25 | the configuration holds the given `AlarmFormat`; its field stays assignable, as the setter at TorchAlarm/TorchAlarm/TorchAlarmConfig.cs:75-81 allows |
| DiscordAlarmClient.DiscordAlarmClient.constructor | TorchAlarm/TorchAlarm.Discord/DiscordAlarmClient.cs:34-51 | the client keeps references to the configuration and the identity linker, and the member cache starts empty |
| DiscordAlarmClient.DiscordAlarmClient.Dispose | TorchAlarm/TorchAlarm.Discord/DiscordAlarmClient.cs:83-88 | the member cache is cleared |
| DiscordAlarmClient.DiscordAlarmClient.GetDiscordMember | TorchAlarm/TorchAlarm.Discord/DiscordAlarmClient.cs:183-192 | the member is the guild's member for the id; a cached member is returned without asking the guild, otherwise the guild is asked once and the answer cached |
| DiscordAlarmClient.DiscordAlarmClient.SendAlarms | TorchAlarm/TorchAlarm.Discord/DiscordAlarmClient.cs:156-181 | nothing is sent for no alarms; otherwise one message per linked discord user until the first failure, each made with the format configured at the time of the call, every recipient's member being cached and no cached member dropped |
| DiscordAlarmClient.DiscordAlarmClient.SendInTurn | TorchAlarm/TorchAlarm.Discord/DiscordAlarmClient.cs:175-180 | the loop's attempts are the given per-user attempts up to and including the first failure, each recipient fetched through the cache |
| DiscordAlarmClient.DiscordAlarmClient.GroupByDiscordId | TorchAlarm/TorchAlarm.Discord/DiscordAlarmClient.cs:161-173 | the loop builds the per-user lists from the linked alarms, users in order of first appearance |
| DiscordAlarmClient.DiscordAlarmClient.MakeAlarmMessage | TorchAlarm/TorchAlarm.Discord/DiscordAlarmClient.cs:194-211 | the message is every alarm's line, formatted with the format configured at the time of the call, each followed by a line break |
| Sending.Attempts | TorchAlert/TorchAlert.Core/AlertDiscordClient.cs:42-53 | one attempt per key, in order, addressed to that key and failing exactly where the send fails |
| Sending.AttemptsAt | TorchAlert/TorchAlert.Core/AlertDiscordClient.cs:42-53 | the attempt for the i-th key carries the message built from that key's list |
| Sending.UntilFailure | TorchAlarm/TorchAlarm.Discord/DiscordAlarmClient.cs:175-180 | without a catch the attempts made are a prefix of the planned ones, all delivered but the last, which failed when the prefix is short; when every send goes through all are made |
| Sending.UntilFailureAt | TorchAlarm/TorchAlarm.Discord/DiscordAlarmClient.cs:175-180 | when attempt i is the first that fails, the attempts made are exactly those up to and including i |
| Sending.UntilFailureStopsAt | TorchAlarm/TorchAlarm.Discord/DiscordAlarmClient.cs:175-180 | nothing after a failed attempt is attempted |
| Sending.FailureStops | TorchAlarm/TorchAlarm.Discord/DiscordAlarmClient.cs:175-180 | when every recipient appears once, no recipient after a failure gets a message |
| Sending.UntilFailureFrom | TorchAlarm/TorchAlarm.Discord/DiscordAlarmClient.cs:175-180 | from position i on, the attempt at i is made, and the later ones only when it went through |
| Grouping.Keys | TorchAlert/TorchAlert.Core/AlertDiscordClient.cs:36-40 | the keys of the entries, in entry order |
| Grouping.ValuesOf | TorchAlert/TorchAlert.Core/AlertDiscordClient.cs:36-40 | the values entered under a key: each comes from an entry with that key, every such entry's value is there, and a key never entered has none |
| Grouping.GroupAllKeys | TorchAlert/TorchAlert.Core/AlertDiscordClient.cs:35-42 | the dictionary enumerates each key of the entries once, in order of first appearance, and holds a list for exactly those keys |
| Grouping.GroupAllLists | TorchAlert/TorchAlert.Core/AlertDiscordClient.cs:35-40 | every key's list holds exactly the values entered under it, in entry order |
| Grouping.GroupAllTotal | TorchAlert/TorchAlert.Core/AlertDiscordClient.cs:35-40 | no value is lost or counted twice: the lists hold as many values as there were entries |
| Grouping.EveryValueInItsGroup | TorchAlert/TorchAlert.Core/AlertDiscordClient.cs:35-40 | an entry's value lands in the list of its own key, and in a list only under a key it was entered with |
| Numerics.Wrap32 | Discord.Torch/Discord.Torch/DiscordIdentityLinker.cs:36 | unchecked `int` arithmetic: the value agrees with the mathematical one modulo 2^32 and equals it when it fits |
| Numerics.Truncate | TorchAlert/TorchAlert.Core/ProximityAlertBuffer.cs:43 | the `(int)` cast of a real truncates toward zero |

## Left out

- The proximity scanners, the world collectors, the damage path, the Discord connection and its message handlers, the plugin main loops, the command modules and the method patches are not part of this model. They are game-engine, Discord, concurrency and lifecycle code. Their outputs (proximities, faction relations, faction members, player names) are parameters or oracle functions here.
- Logging (NLog) is not modelled. `[MethodImpl(Synchronized)]` methods and `async` calls are modelled as plain sequential calls.
- `OnPropertyChanged` is modelled as a counter of announced changes. The XML and WPF configuration plumbing is not modelled.
- File I/O is not modelled. The link db's file is an optional list of lines: `File.ReadAllLines` and `File.WriteAllLines` are taken to split and join lines exactly, and a missing file is `None`.
- TorchAlert/TorchAlert.Discord/DiscordIdentityLinkDb.cs (a wrapper over a CSV store) is not part of this model. TorchAlarm's SQLite-backed link db is not part of this model either. TorchAlarm's linker talks to an abstract two-map store, `AlarmIdentityLinker.IdentityLinkStore`, whose `MakeLink` overwrites both directions. This is an assumption: the SQLite table (TorchAlarm/TorchAlarm.Discord/DiscordIdentityLink.cs:8-15) has an autoincrement key and only indexes `SteamId` and `DiscordId`, so the source does not say whether a second link for the same steam id adds a row or replaces one, nor which row a lookup returns. The clauses that depend on it are those of `AlarmIdentityLinker.IdentityLinkStore.MakeLink`, the store clauses of `AlarmIdentityLinker.DiscordIdentityLinker.TryMakeLink`, and `AlarmIdentityLinker.RedeemTwiceInTwoMapStore`. Under TorchAlert's CSV wrapper, which replaces the steam id's row, the first account of a double redemption would no longer find the steam id.
- `Random().Next` is not modelled: the linkers' constructors take the drawn start value as a parameter.
- The `Utils.General` collection extensions are not part of this model. They are modelled by their names and comments:
  - `Add` on a dictionary of lists appends under the key.
  - `AddOrReplace` overwrites.
  - `IntersectWith` on the filter's dictionary of sets keeps, for each player still observed, only the grids observed again, and drops the other players.
  - `ContainsAny` is a membership test.
- .NET `Dictionary` and `HashSet` enumeration order is modelled as insertion order where the code enumerates a dictionary it only added to: the clients' grouping, the `HashSet` of lines in `MakeProximityAlertMessage`, and `ProximityAlertFilter.Filter`'s `alertsPerPlayer` dictionary and its per-player `HashSet<ProximityAlert>` (TorchAlert/TorchAlert.Core.Proximity/ProximityAlertFilter.cs:29-43). The order of the filter's emitted alerts, across players and within one player's alerts, rests on that assumption. Where the order cannot be known, any order is allowed, and the contracts speak of contents, each key once. This covers the creators' final enumeration, `ProximityReportMaker.GetReports` and `DiscordIdentityLinkDb.Write`.
- `DistanceBuckets.BufferDistance` excludes a width of zero. The source accepts any double, but with zero the quotient is infinite or NaN and the `(int)` cast of it is unspecified in .NET. Negative widths are modelled.
- `Octree.Octree.constructor` takes a `nat` depth. In the source, `new Octree(d)` for a negative `d` never reaches `_depth == 0` and recurses until the stack overflows (TorchAlarm.Discord/TorchAlarm.Core/Octree.cs:15-28), so no octree of negative depth exists.
- Floating point:
  - Distances are reals.
  - `{Distance:0}` formatting is an oracle `showDistance` given to the clients.
  - `Math.Round` is round-half-to-even over reals.
  - The `(int)` cast is truncation toward zero (`Numerics.Truncate`). Its overflow for quotients beyond the `int` range is not modelled.
- `Numerics.Wrap32` models the unchecked `int` arithmetic of the link-code counter. Other integer widths (grid and faction ids are `long`) are unbounded here; the code only compares them.
- `Environment.NewLine` is taken to be `"\r\n"`, the server's platform.
- `Char.IsWhiteSpace`, used by `Trim`, is modelled by its fixed list of Unicode space characters.
- `Mentions.DigitRun`: `\d` is modelled as the ASCII digits 0-9. .NET's `\d` also matches the other Unicode decimal digits.
- `Text.ParseULong`: `ulong.TryParse` is modelled for the invariant culture with `NumberStyles.Integer` (ASCII digits, surrounding white space, a sign). Culture-specific signs and digits are not modelled.
- `Templates.Replace` requires a non-empty pattern, where .NET throws instead. Every pattern the code passes is a non-empty placeholder constant.
- `Octree.Octree.Add`: requires the slot to lie inside the eight children at every level (`Fits`), where the source throws `IndexOutOfRangeException` instead. See Findings.
- Octree children are an immutable sequence of nodes, not an array. The source writes `_children` only in the constructor's loop, so nothing observable changes.
- `Lineage.Node`: `Parent` is fixed when the node is created. The source assigns it once, right after `new`, before the node is published in the dictionary.
- `CoreProximityAlertFilter.ProximityAlertFilter` takes the `ParentsLookupTree` class where the source takes the `IParentsLookupTree` interface. The tree is the only implementation the repository has.
- `TorchAlertResponder.TryRespond` takes the `TorchAlertConfig` class where TorchAlert/TorchAlert.Core/TorchAlert.cs:31 holds the `IConfig` interface. Its `Mute` and `Unmute` are modelled by that class's implementation, the only one in the repository.
- The buffers' and clients' `Config` classes stand for the `IConfig` interfaces each of them declares. In the plugin one configuration object implements them all; the model gives each its own object, so a change reaches only the component holding that object.
- `AlarmCreator.AlarmFor`: TorchAlarm/TorchAlarm.Core/ProximityAlarmCreator.cs:54 calls the alarm constructor without a grid id, which TorchAlarm/TorchAlarm.Core/ProximityAlarm.cs:5 requires. The model fills the grid id from the defender.
- `TorchAlarmConfig.TorchAlarmConfig.Mute`: requires an assigned mute list, where the source throws `NullReferenceException` on the unset list. `IsMuted` and `Unmute`, and the same three methods of `DiscordTorchAlarmConfig.TorchAlarmConfig`, are modelled the same way.
- `DiscordAlarmClient.DiscordAlarmClient.GetDiscordMember`:
  - The guild is an oracle function from id to member.
  - A failing `GetMemberAsync`, and `LoadGuildAsync`, are not modelled.
  - The ghost counter `fetches` stands for "the guild was asked".
- `DiscordAlertClient.DiscordAlertClient.SendAlert`: a failing `GetUserAsync` and a failing `SendMessageAsync` are one failure oracle `fails`, since both are caught by the same `catch`.
- Player names in `TryRespond` come from `MySession`, which is not part of this model: the name is a parameter.

## Findings

| source | as written | input that shows it | evidently intended | confidence | as-written member | corrected member |
|---|---|---|---|---|---|---|
| TorchAlarm.Discord/TorchAlarm.Core/Octree.cs:77-78 | `GoDeep` clamps with `Math.Max(Math.Round(normal * 2), 1)`. The axis index is therefore never 0 and the child slot `x + 2y + 4z` is at least 7. Every in-range `Add` lands in the last leaf, and any axis index of 2 indexes past the eight children | the position (0.9, 0.9, 0.9) gives slot 14, past the array; the origin goes to slot 7 with nested position -1 | the index is 0 or 1 by the half of [0, 1] the coordinate is in, and the nested position is rescaled into [0, 1], so every normal position reaches one of the 8^depth leaves | not executed | Octree.GoDeepCounterexample | Octree.Octree.AddIntended |
