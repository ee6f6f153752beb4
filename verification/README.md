# Models of the IoT platform's hard logic

A Dafny project that models the logic behind the dashboard's rule editor, its
schedules, its live charts and its hardware templates, the firmware's config gate
and publish scheduler, and three protocols (refresh-token rotation, the reconnecting
socket, the telemetry writer), and proves what they are for. `dafny verify
dfyconfig.toml` checks all of it.

Where the source changes things in place the model is a class or an array method
proved equal to a function, and the theorems are about that function; protocols are
step systems whose runs are arbitrary interleavings of what the world may do.

## Main results

- **The ladder is the tree.** `LadderCircuit.DrawingIsTheTree`: for every tree without
  an empty group and every set of closed contacts, the drawn graph of cells and wires
  joins the left rail to the right exactly when the AND/OR tree is true.
  `EditorRuns.DrawnIsSaved` carries it over whole editing sessions to the condition
  that is stored.
- **Edits are substitutions.** Inserting, removing and normalising keep the contacts in
  order and mean what they say; `RemoveUndoesInsert` says exactly when removing what was
  just inserted gives the old tree back.
- **A rule's clear actions are conserved** through loading and saving, each exactly as
  `KeptAsIs` says. Opening the saved rule gives the same draft if and only if its names
  agree (`ClearActionsStable.SecondLoadSame`), and then saving is a fixed point.
- **Template parts.** Whatever parts go, come or change driver, any number at once, and
  whatever readings are chosen, links name rows, no row is linked twice, and new keys
  are free, as long as the fresh parts' readings keep apart; for new parts that all want
  one reading, however many, `PartClashes.NewPartsSound` says exactly when they may. Adding a part
  and taking it out is the identity. The key search ends by a pigeonhole argument.
- **Schedules.** The picker's model and its cron undo each other exactly in the range
  the picker keeps; `nextRuns` gives exactly the first runs there are.
- **Live data.** Coalescing refines direct application, exactly while each window's ties
  are harmless (`CoalescingRuns.CoalescingAgreesExactly`); appending in batches is
  appending once; decimation keeps every slice's extremes; on/off buckets read back.
- **Protocols.** No rotated token is ever presented; the socket is one at a time and
  its back-off is what the log of drops says, and its caller is told of every end but an
  exception; the writer commits each entry once, in
  order, and acknowledges only what is committed or malformed.
- **Firmware.** CRC-32 detects every burst of up to 32 bits, so an altered config blob
  is refused; publishes keep their distance across clock wraps and profile changes, and
  no metric falls silent exactly while its interval and the poll gap fit the clock.

## Where the code differs from what is said of it

- Removing what was inserted beside a group of the same operator leaves the group under
  a new id, and an inserted group of that operator dissolves, so that there is nothing by
  its id to remove (`TreeEdits.RemoveUndoesInsert`, `TreeEdits.InsertedGroupIsLost`).
- Two readings of one metric at one time: the buffer keeps the last value, direct
  application the first (`Coalescing.TieDiffers`; `Coalescing.WindowAgrees` and
  `CoalescingRuns.CoalescingAgreesExactly` for exactly when it shows).
- Calling a series' unsubscribe function a second time can silence whoever subscribed
  since (`LiveBuffer.UnsubscribeDrops`, `LiveBuffer.SecondCallDrops`).
- A cron whose step is wider than the picker's range is shown and rewritten to one that
  runs at other times (`ScheduleRoundTrip.CronRoundTrip`).
- A clear action of another value type than its owner is saved as another value
  (`ClearActions.RewrittenSame`). Saving trims actuator names, so two actions whose names
  trim alike can trade a clear action at the next load (`ClearActionsStable.SecondLoadSame`
  for exactly when). What is saved then often changes (`PaddedNameMoves`), but need not:
  two switches set alike are saved with the same clear action in the same place, whichever
  of them holds it (`PaddedNameCoincides`).
- Two parts added at once can be linked to one row, for the rows taken are read from the
  wiring as it came (`PartClashes.NewPartsShare` for exactly when,
  `PartClashes.TwoInEmptyDraft` for a draft where they are). The wiring section adds them
  one at a time (frontend/src/components/catalog/HardwareSection.tsx:173-174); keeping a reading
  and dropping it again can take an old proposed row with it
  (`PartReadings.DropUndoesKeep`, `PartReadings.EditedBackIsLost`).
- A refresh by a tab with a session of its own empties the kept store, and with it a
  session other tabs keep there (`TokenRefresh.KeptSessionLost`).
- A token request that throws, or a socket that cannot be created, leaves the caller with
  the status it had, for good (`Realtime.ToldExactly`, `Realtime.ThrowingIsSilent`).
- `backend/src/app/catalog/schemas.py` sets no upper bound on an interval, but the board
  keeps it exactly up to 4294967 s (`PublishProfile.IntervalExact`), and at the multiples
  of 536870912 s every poll publishes (`PublishProfile.IntervalWraps`).
- On a clock that wraps, an interval that leaves no room for a poll gap below the clock's
  range can pass unseen (`PublishProfile.SilenceExactly`).

## Model

| member | source | states |
|---|---|---|
| ConditionTree.Normalize | frontend/src/lib/rule-draft.ts:682-694 | the loop gives the normal form the lemmas below are about |
| ConditionTree.NormalAlternates | frontend/src/lib/rule-draft.ts:682-694 | the result always alternates: every group has two or more children, none a group of its own operator |
| ConditionTree.NormalFixesAlternating | frontend/src/lib/rule-draft.ts:682-694 | a tree is left alone exactly when it alternates already |
| ConditionTree.NormalIdempotent | frontend/src/lib/rule-draft.ts:682-694 | normalising twice is normalising once |
| ConditionTree.NormalKeepsLeaves | frontend/src/lib/rule-draft.ts:663-694 | no contact is dropped, repeated or reordered, for any tree |
| ConditionTree.NormalKeepsMeaning | frontend/src/lib/rule-draft.ts:682-694 | the meaning stays, empty groups counting as unsaid |
| ConditionTree.NormalKeepsTruth | frontend/src/lib/rule-draft.ts:682-694 | a tree without empty groups keeps its truth value and never disappears |
| ConditionTree.NormalAddsNoIds | frontend/src/lib/rule-draft.ts:682-694 | no id is there more often than before |
| TreeEdits.InsertIsSubstitution | frontend/src/lib/rule-draft.ts:696-740 | inserting beside T is replacing T by (T op added) and normalising, whether it joins the parent, wraps the target or sits at the root; an unknown id changes nothing |
| TreeEdits.InsertKeepsOrder | frontend/src/lib/rule-draft.ts:706-740 | the added contacts come right after the target's own, the rest in place |
| TreeEdits.InsertMeans | frontend/src/lib/rule-draft.ts:706-740 | the result is true exactly when the root with T read as (T op added) is |
| TreeEdits.RemoveKeepsOrder | frontend/src/lib/rule-draft.ts:742-751 | exactly the removed subtree's contacts go, the rest keep their order; an unknown id only normalises |
| TreeEdits.RemoveMeans | frontend/src/lib/rule-draft.ts:742-751 | the result means the tree with that node left unsaid |
| TreeEdits.RemoveUndoesInsert | frontend/src/lib/rule-draft.ts:706-751 | removing what was inserted gives back the same tree if and only if neither the target nor what was inserted is a group of that operator |
| TreeEdits.InsertedGroupIsLost | frontend/src/lib/rule-draft.ts:706-751 | so a group of any two contacts is not given back |
| ConditionApi.LeafRoundTrip | frontend/src/lib/rule-draft.ts:305-319 | exactly the canonical leaves come back as they were, and every leaf comes back canonical |
| ConditionApi.SaveMeans | frontend/src/lib/rule-draft.ts:459-496 | a saved condition has no null among its predicates, is canonical and says what the tree says; null only for a tree without contacts |
| ConditionApi.LoadSaveMeans | frontend/src/lib/rule-draft.ts:305-329 | opening and saving keeps the meaning, leaves read as written back |
| ConditionApi.LoadSaveFixedPoint | frontend/src/lib/rule-draft.ts:321-329 | a stored condition comes back unchanged exactly when it is canonical |
| LadderLayout.LadderOut.Place | frontend/src/lib/ladder-layout.ts:60-102 | appends exactly the block's sketch to what is drawn and answers its size |
| LadderLayout.LadderOut.PlaceSeries | frontend/src/lib/ladder-layout.ts:71-82 | children side by side, each from where the last one ended |
| LadderLayout.LadderOut.PlaceParallel | frontend/src/lib/ladder-layout.ts:84-102 | branches stacked, fillers out to the widest, then both buses |
| LadderLayout.LadderOut.PlaceBranches | frontend/src/lib/ladder-layout.ts:84-93 | each branch's row and width, and the block's size |
| LadderLayout.LadderOut.WireBranches | frontend/src/lib/ladder-layout.ts:94-99 | exactly the fillers and the two buses are added |
| LadderLayout.LayoutCondition | frontend/src/lib/ladder-layout.ts:51-58 | the whole rung at the origin; no tree is a blank of height 1 |
| LadderCircuit.DrawingIsTheTree | frontend/src/lib/ladder-layout.ts:5-102 | electrically identical: current crosses the drawing exactly when the tree is true, for every contact state |
| LadderCircuit.DrawnInBox | frontend/src/lib/ladder-layout.ts:60-102 | every block stays inside its own width and height |
| LadderCircuit.DrawnTidy | frontend/src/lib/ladder-layout.ts:60-102 | contacts occupy distinct cells and no wire shorts one |
| LadderCircuit.CellsAreContacts | frontend/src/lib/ladder-layout.ts:60-102 | one cell per contact, in the tree's order |
| LadderCircuit.DrawRung | frontend/src/lib/ladder-layout.ts:51-102 | the imperative drawing itself has all of these properties |
| EditorRuns.EditKeepsForm | frontend/src/lib/rule-draft.ts:696-767 | every edit of an alternating tree with unique ids gives another |
| EditorRuns.RunKeepsForm | frontend/src/lib/rule-draft.ts:696-767 | so does any run of edits |
| EditorRuns.RunKeepsSane | frontend/src/lib/rule-draft.ts:696-767 | any run of edits keeps ids unique and groups filled, from any such tree |
| EditorRuns.OpenedIsSane | frontend/src/lib/rule-draft.ts:321-329 | an opened condition without empty groups is such a tree, alternating or not |
| EditorRuns.DrawnIsSaved | frontend/src/lib/ladder-layout.ts:5-13 | after any editing session, begun with a new or an opened rule, current crosses the drawn rung exactly when the saved condition holds |
| ClearActions.FirstOwner | frontend/src/lib/rule-draft.ts:403-412 | the first action with the clear action's target that is not turned back yet |
| ClearActions.ParseActions | frontend/src/lib/rule-draft.ts:375-394 | drafts and passed-through actions in order, an email alert added for an old email channel |
| ClearActions.FoldClearActions | frontend/src/lib/rule-draft.ts:396-428 | the first-match loop that mutates owners computes the folding |
| ClearActions.DraftFromRule | frontend/src/lib/rule-draft.ts:369-455 | parsing then folding is loading |
| ClearActions.ClearActionsToSave | frontend/src/lib/rule-draft.ts:557-572 | the save loop unfolds owners, the clear notification and what was preserved |
| ClearActions.SavedAreRewritten | frontend/src/lib/rule-draft.ts:396-428 | the saved clear actions are the loaded ones as a multiset, each as rewritten where it was folded: none lost, repeated or invented |
| ClearActions.RewrittenSame | frontend/src/lib/rule-draft.ts:502-505 | a clear action comes back as it was exactly when its value is its owner's type and nothing is padded or missing |
| ClearActions.ClearActionsKept | frontend/src/lib/rule-draft.ts:396-428 | loading and saving keeps the clear actions as a multiset |
| ClearActionsStable.OwnerFound | frontend/src/lib/rule-draft.ts:403-412 | a saved clear action goes back to the action it came from, unless one before it is saved alike and not turned back |
| ClearActionsStable.SecondLoadSame | frontend/src/lib/rule-draft.ts:396-428 | opening the saved rule turns the same actions back and passes the same clear actions through if and only if, of the actions saved under one target, those turned back come first, and no saved action would take a clear action passed through |
| ClearActionsStable.SecondSaveSame | frontend/src/lib/rule-draft.ts:546-592 | under that condition a second load and save changes nothing, and the condition goes on holding |
| ClearActionsStable.TrimmedAgree | frontend/src/lib/rule-draft.ts:514-522 | the condition holds whenever no name is padded |
| ClearActionsStable.PaddedNameMoves | frontend/src/lib/rule-draft.ts:557-572 | a rule that fails it and is saved otherwise the second time |
| ClearActionsStable.PaddedNameCoincides | frontend/src/lib/rule-draft.ts:557-572 | a rule that fails it and is saved alike |
| FreeKey.DecimalReads | frontend/src/lib/template-draft.ts:366-370 | a suffix is decimal digits that read back as the number |
| FreeKey.CandidatesDiffer | frontend/src/lib/template-draft.ts:366-370 | no two keys tried are the same |
| FreeKey.AheadShrinks | frontend/src/lib/template-draft.ts:366-370 | each taken candidate leaves fewer taken keys ahead, so the search ends |
| FreeKey.FindFreeKey | frontend/src/lib/template-draft.ts:366-370 | the key found is neither used nor reserved, and the first such candidate |
| FreeKey.SearchIsShort | frontend/src/lib/template-draft.ts:366-370 | it tries at most one key more than are used or reserved |
| PartLinks.CarryLinks | frontend/src/lib/template-draft.ts:489-522 | the two passes compute the carried links |
| PartLinks.CarryConserves | frontend/src/lib/template-draft.ts:485-522 | each old link goes to one reading at most, and none is made up |
| PartLinks.SameKeyCarried | frontend/src/lib/template-draft.ts:495-503 | a reading the new driver also has keeps its row |
| PartLinks.CarryIsMaximal | frontend/src/lib/template-draft.ts:513-521 | no link is left behind that an empty reading could have taken |
| TemplateParts.RowForChannel | frontend/src/lib/template-draft.ts:524-551 | a free row with the key and type if there is one, else a new row under a free, unreserved key |
| TemplateParts.FillChannels | frontend/src/lib/template-draft.ts:431-445 | the channel loop computes the filling |
| TemplateParts.ProposeParts | frontend/src/lib/template-draft.ts:419-447 | the part loop computes the placed side |
| TemplateParts.ReconcileParts | frontend/src/lib/template-draft.ts:382-451 | the whole update, with no catalogue and cleared wiring as the source treats them |
| PartsSound.FillFilled | frontend/src/lib/template-draft.ts:431-445 | while channels fill, no row is linked twice, every link names a row, none the other parts took |
| PartsSound.FillGrows | frontend/src/lib/template-draft.ts:431-445 | rows are only added, with new uids, under keys free then and not reserved |
| PartsSound.PlacedKept | frontend/src/lib/template-draft.ts:422-425 | a part in place whose rows stay is left alone |
| PartsSound.FillOrigin | frontend/src/lib/template-draft.ts:431-445 | every link a part ends with was there, or a common reading without one got it: a row found under its key and type, or one made |
| PartsSound.SharedHow | frontend/src/lib/template-draft.ts:437-444 | two fresh parts share a row only if both carry it, one takes what the other carries, or two of their readings clash |
| PartsSound.PlacedSound | frontend/src/lib/template-draft.ts:419-447 | with any number of fresh parts that keep apart the placed side is sound |
| PartEdits.DroppedExactly | frontend/src/lib/template-draft.ts:390-417 | a row goes exactly when a part that goes or changes driver proposed it, it is untouched, and nothing left or carried links it |
| PartEdits.RowsKept | frontend/src/lib/template-draft.ts:416-451 | for any number of changed parts: kept rows stay in order, added ones have free keys, parts in place come back unchanged |
| PartEdits.ReconcileSound | frontend/src/lib/template-draft.ts:382-451 | with any number of parts gone, new or on another driver, whose readings keep apart, every link names a row, no row is linked twice, uids stay unique |
| PartRuns.KeepSound | frontend/src/lib/template-draft.ts:559-581 | keeping a reading keeps the template sound |
| PartRuns.DropSound | frontend/src/lib/template-draft.ts:582-590 | so does dropping one |
| PartRuns.RunSound | frontend/src/lib/template-draft.ts:374-451 | so does any run of adding, removing, replacing, rewiring, clearing and choosing |
| PartUndo.ReconcileSettles | frontend/src/lib/template-draft.ts:382-451 | reconciling a draft with its own wiring changes nothing |
| PartUndo.Added | frontend/src/lib/template-draft.ts:426-446 | the rows an added part brings are exactly those it records as proposed |
| PartUndo.AddThenRemove | frontend/src/lib/template-draft.ts:374-451 | adding a part and taking it out again gives back the template as it was |
| PartReadings.FillLinks | frontend/src/lib/template-draft.ts:431-445 | every common reading ends up linked to a row of its type under its key or a numbered one; uncommon ones stay unlinked |
| PartReadings.PlacedLinks | frontend/src/lib/template-draft.ts:426-446 | a fresh part's reading takes its carried link, else a row that suits it |
| PartReadings.ReplacedKeepsReading | frontend/src/lib/template-draft.ts:401-410 | a replaced part keeps the row of a reading both drivers have |
| PartClashes.NewPartsShare | frontend/src/lib/template-draft.ts:437-444 | of any number of new parts that want a reading of one type and key, any two link one row exactly when a free row was there or the bare key was not blocked |
| PartClashes.NewPartsSound | frontend/src/lib/template-draft.ts:437-444 | if no other of their readings clash, the side stays sound exactly when there is one such part at most, or there was no such row and the key was blocked |
| PartClashes.TwoInEmptyDraft | frontend/src/lib/template-draft.ts:437-444 | two new parts on a driver with one common reading, in an empty draft, end up on one row |
| PartReadings.DropUndoesKeep | frontend/src/lib/template-draft.ts:559-590 | keeping and dropping a reading gives the draft back exactly when it was not linked to the part's own old proposal |
| PartReadings.EditedBackIsLost | frontend/src/lib/template-draft.ts:582-590 | such a proposal is left by editing a row, dropping its reading and editing it back |
| Cron.CronField | frontend/src/lib/schedule.ts:50-79 | the loop computes the field's values, or none |
| Cron.FieldIsUnion | frontend/src/lib/schedule.ts:50-79 | a field that reads is the ascending, duplicate-free union of its ranges and steps, 7 folded to 0; it reads exactly when every part does |
| Cron.ClampRepeat | frontend/src/lib/schedule.ts:159-162 | a step from 1 to 59 minutes or 23 hours, unchanged when it is one |
| ScheduleRoundTrip.ModelRoundTrip | frontend/src/lib/schedule.ts:117-157 | the picker's model comes back unchanged exactly when it is one it can show |
| ScheduleRoundTrip.DaysComeBack | frontend/src/lib/schedule.ts:117-157 | chosen days come back as custom exactly when the time is none, no day is chosen or one is past 7; else as exactly those weekdays, 7 read as 0, in order |
| ScheduleRoundTrip.WideStep | frontend/src/lib/schedule.ts:159-162 | a step wider than its field runs at other times than the widest one written |
| ScheduleRoundTrip.CronRoundTrip | frontend/src/lib/schedule.ts:117-162 | a shown cron is rewritten to one that runs alike exactly when its step is at most 59 min or 23 h |
| NextRuns.NextRuns | frontend/src/lib/schedule.ts:253-281 | the nested search computes the first n of all slots, none for an unreadable cron |
| NextRuns.ScanDay | frontend/src/lib/schedule.ts:272-279 | one matching day's slots are appended until n are found |
| NextRuns.ScanHour | frontend/src/lib/schedule.ts:273-277 | one hour's minutes strictly after now |
| NextRuns.FirstRuns | frontend/src/lib/schedule.ts:253-281 | strictly increasing, all of them runs of the cron after now within 400 days, and no run left out before the last; either-day rule included |
| NextRuns.RewrittenRunsAlike | frontend/src/lib/schedule.ts:253-281 | a cron the picker rewrites within range keeps every run |
| LiveTelemetry.FindMerged | packages/shared/src/live-telemetry.ts:19-34 | a merge sets its metric when news, and no other |
| LiveTelemetry.LaterWins | packages/shared/src/live-telemetry.ts:19-34 | of two readings in time order the second alone is enough |
| LiveTelemetry.OlderLoses | packages/shared/src/live-telemetry.ts:19-34 | a reading no newer than one merged changes nothing |
| LiveTelemetry.MergesCommute | packages/shared/src/live-telemetry.ts:19-34 | readings of different metrics merge in either order once both have a place |
| Coalescing.DirectIsFirst | frontend/src/lib/live-buffer.ts:57-77 | direct application is one application of the newest readings, first of equal times |
| Coalescing.WindowAgrees | frontend/src/lib/live-buffer.ts:57-77 | one window's flush equals direct application if and only if no counting tie carried different values |
| Coalescing.WindowAgreesWithoutTies | frontend/src/lib/live-buffer.ts:57-77 | in particular without ties |
| Coalescing.TieDiffers | frontend/src/lib/live-buffer.ts:63 | a tie does differ |
| LiveBuffer.LiveBuffer.Push | frontend/src/lib/live-buffer.ts:57-77 | the pending maps after a push; nothing while hidden; a flush is asked for once |
| LiveBuffer.LiveBuffer.SetLatestHandler | frontend/src/lib/live-buffer.ts:52-55 | whether a handler takes the batches |
| LiveBuffer.LiveBuffer.SubscribeSeries | frontend/src/lib/live-buffer.ts:79-91 | the listener joins its series' set, made if there is none; the handle names that set |
| LiveBuffer.LiveBuffer.UnsubscribeSeries | frontend/src/lib/live-buffer.ts:84-90 | the listener leaves the handle's set; when that is empty the series' present set and pending points go, whichever they are |
| LiveBuffer.UnsubscribeDrops | frontend/src/lib/live-buffer.ts:84-90 | exactly whom a call takes out, a late or repeated one included |
| LiveBuffer.SecondCallDrops | frontend/src/lib/live-buffer.ts:84-90 | a second call can silence a later subscriber |
| LiveBuffer.LiveBuffer.Clear | frontend/src/lib/live-buffer.ts:94-97 | drops everything pending |
| LiveBuffer.LiveBuffer.Flush | frontend/src/lib/live-buffer.ts:99-131 | hands out the batch and each series once, and empties the buffer |
| LiveBuffer.CoalescingRefinesDirect | frontend/src/hooks/useRealtime.ts:84-93 | after any visible, handled run without ties that ends in a flush, every device's list, values and order, is what merging each frame on arrival gives |
| CoalescingRuns.CoalescingAgreesExactly | frontend/src/lib/live-buffer.ts:57-131 | over any visible, handled run from an empty buffer, the lists equal the direct ones after every flush if and only if in every window no cached device's counting ties carried different values |
| LiveBuffer.ChartsLoseNothing | frontend/src/lib/live-buffer.ts:57-131 | what a listener was handed and what is pending is every point pushed, in order |
| LiveBuffer.HiddenDropsAll | frontend/src/lib/live-buffer.ts:57-131 | while hidden nothing gets in or out |
| LiveBuffer.RunKeepsValid | frontend/src/lib/live-buffer.ts:36-131 | every run keeps the buffer's invariant |
| ChartWindow.Columns.AppendToWindow | frontend/src/lib/live-buffer.ts:173-191 | the columns stay aligned and ascending and hold the appended window |
| ChartWindow.Columns.PushPoint | frontend/src/lib/live-buffer.ts:174-178 | a point not newer than the tip is skipped |
| ChartWindow.Columns.Trim | frontend/src/lib/live-buffer.ts:179-190 | exactly what is before the cutoff goes |
| ChartWindow.Columns.FirstInside | frontend/src/lib/live-buffer.ts:179-186 | the binary search finds the first index inside the window |
| ChartWindow.Reseed | frontend/src/lib/live-buffer.ts:157-168 | the fetch takes the live points newer than its tip, of the same series only |
| ChartWindow.TwoAppendsAreOne | frontend/src/lib/live-buffer.ts:173-191 | appending p then q is appending both with the later cutoff, even if the first trim empties the window |
| ChartWindow.RunIsOneAppend | frontend/src/lib/live-buffer.ts:173-191 | so is any run of calls whose cutoffs never go back |
| ChartWindow.SeedAscends | frontend/src/lib/live-buffer.ts:157-168 | no newer live point is lost, none else is carried, order is kept |
| ChartWindow.SeedIsAppend | frontend/src/lib/live-buffer.ts:157-168 | reseeding is drawing the live points over the fetch |
| ChartDecimate.DecimateMinMax | packages/shared/src/chart-decimate.ts:10-45 | a subsequence in order with first and last points, at most 2·buckets+2 long, in which each slice's extremes survive; sparse input untouched |
| ChartDecimate.ScanSlice | packages/shared/src/chart-decimate.ts:26-33 | the inner loop visits exactly one slice's points and finds its extremes |
| ChartDecimate.PushPair | packages/shared/src/chart-decimate.ts:34-41 | the extremes are pushed in time order |
| ChartDecimate.PushPoint | packages/shared/src/chart-decimate.ts:16-20 | never the same x twice running |
| ChartDecimate.SliceAtLeast | packages/shared/src/chart-decimate.ts:25-30 | the running index and the slice a point belongs to agree |
| ChartDecimate.ExtremesSurvive | packages/shared/src/chart-decimate.ts:5-9 | the output's extremes bracket every input value |
| BoolSeries.BoolBuckets | packages/shared/src/bool-series.ts:13-36 | at every instant the line shows the latest bucket's state when it is pure or still open, and unknown after a mixed one; x strictly ascends |
| BoolSeries.DrawBucket | packages/shared/src/bool-series.ts:16-34 | one turn of the loop extends such a line by one bucket |
| BoolSeries.LatestExists | packages/shared/src/bool-series.ts:13-36 | at every instant from the first bucket on there is exactly one latest bucket |
| TokenRefresh.Storage.ReadRefreshToken | frontend/src/lib/auth-context.tsx:26-28 | the tab's own token first |
| TokenRefresh.Storage.ApplySession | frontend/src/lib/auth-context.tsx:30-37 | the token goes to the store that already holds the session, and the next read finds it |
| TokenRefresh.Storage.ClearSession | frontend/src/lib/auth-context.tsx:112-117 | both stores are emptied |
| TokenRefresh.Storage.Refresh | frontend/src/lib/auth-context.tsx:121-155 | one tab's retry loop, the stores changing meanwhile: at most four posts, each of the token read then, stopping at the first answer; only a rejection clears |
| TokenRefresh.InvStep | frontend/src/lib/auth-context.tsx:95-155 | every step of any tab, the server or the network keeps the invariant |
| TokenRefresh.InvRun | frontend/src/lib/auth-context.tsx:95-155 | so does every run |
| TokenRefresh.NoReplayEver | frontend/src/lib/auth-context.tsx:39-57 | in every run no rotated token is presented, a refresh posts at most four times, and outside the lock every stored token is current or revoked |
| TokenRefresh.OnlyRefusalClears | frontend/src/lib/auth-context.tsx:137-141 | a refresh leaves its tab without a token exactly on a 401 or 403 |
| TokenRefresh.OtherTabsKeepTokens | frontend/src/lib/auth-context.tsx:30-33 | another tab loses its token to a refresh in exactly two cases |
| TokenRefresh.KeptSessionLost | frontend/src/lib/auth-context.tsx:30-33 | the second of them happens |
| Realtime.Connection.Connect | packages/shared/src/realtime.ts:75-78 | the start of an attempt: nothing once closed, else a status and a token request |
| Realtime.Connection.OnToken | packages/shared/src/realtime.ts:78-85 | no token ends it, a token makes the one socket |
| Realtime.Connection.OnClose | packages/shared/src/realtime.ts:109-121 | a drop: nothing once closed, the end on 4403, else a timer with the reason, delay and doubled back-off |
| Realtime.Connection.CloseSocket | packages/shared/src/realtime.ts:122-130 | the current socket, if any, is told to close |
| Realtime.Connection.Handle | packages/shared/src/realtime.ts:71-131 | each event changes the closure and the world as its handler does |
| Realtime.StepInv | packages/shared/src/realtime.ts:71-131 | every event keeps the invariant |
| Realtime.OneAtATime | packages/shared/src/realtime.ts:71-131 | in every run exactly one of request, timer and socket is pending, or the connection has ended; the closure's socket is the live one |
| Realtime.LogIsLawful | packages/shared/src/realtime.ts:109-121 | no socket or request after close() or 4403; rejected only after a 4401; an ordinary wait is min(1000·2^i, 15000) ms after i drops since the last open |
| Realtime.OverIsFinal | packages/shared/src/realtime.ts:109-131 | after close() or 4403 nothing is asked for, waited for or created |
| Realtime.DelayDoubles | packages/shared/src/realtime.ts:120 | the capped doubling is the capped power of two |
| Realtime.EndsExactly | packages/shared/src/realtime.ts:75-121 | it gives up exactly on a missing token, an exception or a 4403 |
| Realtime.KeepsTrying | packages/shared/src/realtime.ts:54-60 | otherwise it goes on for ever |
| Realtime.EndedStays | packages/shared/src/realtime.ts:75-121 | an ended connection stays ended, its status unchanged |
| Realtime.ToldExactly | packages/shared/src/realtime.ts:75-121 | in every run the caller is told closed exactly when the connection has ended and the last thing was no exception |
| Realtime.EndIsTold | packages/shared/src/realtime.ts:75-121 | of the events that end it, all but a throwing token request or socket are told |
| Realtime.ThrowingIsSilent | packages/shared/src/realtime.ts:75-85 | an exception at any attempt leaves the status as it was, for good |
| StreamWriter.StreamWriter.Flush | backend/src/app/worker.py:607-647 | commit, health summary and acknowledgement together, or the loop stops |
| StreamWriter.StreamWriter.TakeEntries | backend/src/app/worker.py:666-673 | rows and ids are taken in order, the first row's time noted, an overflow stops the loop |
| StreamWriter.StreamWriter.TakeTurn | backend/src/app/worker.py:650-676 | one turn: what is asked of Redis, and the state after it |
| StreamWriter.StepInv | backend/src/app/worker.py:597-676 | every turn keeps the cut through the stream and the buffer below a batch |
| StreamWriter.AckedIsSafe | backend/src/app/worker.py:607-647 | after any run, crashed or not, an acknowledged entry's row is committed or it was malformed |
| StreamWriter.ExactlyOnce | backend/src/app/worker.py:597-676 | without a crash each well-formed entry is exactly once in committed rows followed by the buffer, in order; the health record is the last committed values |
| StreamWriter.CrashKeepsAPrefix | backend/src/app/worker.py:607-647 | a crash may commit what it never acknowledges, but nothing twice or out of order |
| StreamWriter.ReadsAndFlushesAreReal | backend/src/app/worker.py:651-661 | every read asks for at least one entry, and no flush acknowledges nothing |
| StreamWriter.LatestOfBatches | backend/src/app/worker.py:632-643 | summarising batch after batch is summarising all rows |
| StreamWriter.LatestIsLast | backend/src/app/worker.py:636-638 | the last row of a device's metric decides |
| StreamWriter.CheckedInTime | backend/src/app/worker.py:571-576 | at a check the oldest row has waited less than the interval, a millisecond and the world's lag |
| StreamWriter.NeverLate | backend/src/app/worker.py:571-576 | so in every timely run no flush writes a row that waited longer |
| Crc32.Crc32Ieee | firmware/src/crc32.h:9-16 | the bitwise loops compute the CRC of the lemmas below |
| Crc32.TableEntry | frontend/src/lib/hardware/config-blob.ts:48-56 | one table entry |
| Crc32.Crc32Table | frontend/src/lib/hardware/config-blob.ts:58-63 | the table form computes the same CRC |
| Crc32.TableStep | frontend/src/lib/hardware/config-blob.ts:58-63 | one look-up does the eight bit steps |
| Crc32.RunLinear | firmware/src/crc32.h:9-16 | the register map is linear over XOR |
| Crc32.ShiftBijection | firmware/src/crc32.h:9-16 | and a bijection: its inverse undoes it on both sides |
| Crc32.BackFromZero | firmware/src/crc32.h:9-16 | only those same bits lead a register to zero in at most 32 steps |
| Crc32.BurstDetected | firmware/src/crc32.h:9-16 | any two messages that differ only within 32 consecutive bits have different CRCs |
| Crc32.FourBytesDetected | firmware/src/crc32.h:9-16 | in particular within four consecutive bytes |
| ConfigBlob.EncodeConfigBlob | frontend/src/lib/hardware/config-blob.ts:65-81 | header, body and padding, or an error when it does not fit |
| ConfigBlob.LoadConfig | firmware/src/config.cpp:40-74 | the checks in order, each with its error |
| ConfigBlob.GateAcceptsLayout | firmware/src/config.h:12-18 | the gate lets exactly the bodies of well laid-out partitions through |
| ConfigBlob.RoundTrip | firmware/src/config.cpp:52-74 | what the browser writes the firmware reads back, if and only if the body is not empty, as JSON text never is |
| ConfigBlob.TamperedBodyRefused | firmware/src/config.cpp:71-74 | a blob altered within 32 consecutive bits is refused for its checksum |
| PublishProfile.Io.IoPublishMetrics | firmware/src/io.cpp:255-293 | every metric after a poll, and which were tried |
| PublishProfile.Io.ApplyProfile | firmware/src/io.cpp:156-172 | the vector after a config message |
| PublishProfile.ProfiledIs | firmware/src/io.cpp:163-171 | the last item for a key sets the first metric of that key, every other metric and all that was sent stays |
| PublishProfile.PublishesSpaced | firmware/src/io.cpp:262-290 | after any run, wraps and profile changes included, a publish comes at least the present floor after the one before |
| PublishProfile.IntervalExact | firmware/src/io.cpp:166-168 | the interval is the seconds asked for exactly up to 4294967 s |
| PublishProfile.FloorIs | firmware/src/io.cpp:44-48 | the floor is 100 ms on change exactly when the wrapped product is no less, or no seconds are given; else it is the interval |
| PublishProfile.IntervalWraps | firmware/src/io.cpp:167-168 | the interval is 0 ms exactly at the multiples of 536870912 s |
| PublishProfile.GoodPollHears | firmware/src/io.cpp:262-290 | after a poll that can publish, the metric was heard of within its interval, and on change within its dead band or 100 ms |
| PublishProfile.RefusedIsRetried | firmware/src/io.cpp:262-290 | a publish that is due and refused is tried at every later poll with a reading until one is taken, while the clock has not come round |
| PublishProfile.NeverSilent | firmware/src/io.cpp:255-293 | so at every poll of a steady run with room throughout, profile changes included |
| PublishProfile.WrapHidesSilence | firmware/src/io.cpp:263-280 | without room, for every interval and gap, some run of good polls ends in a silence unseen |
| PublishProfile.SilenceExactly | firmware/src/io.cpp:255-293 | a metric is heard of at every poll of every such run if and only if its interval and the gap fit the clock, or the interval is 0 ms |

## Left out

- The back end's rule evaluation, hysteresis and latching: conditions are AND/OR over leaf truth values.
- React rendering, SWR, dashboards, screens and permissions: user interface.
- MQTT, Redis, PostgreSQL, BLE, Wi-Fi, TLS, HTTP and JSON parsing: what they answer is an input of a step, and the config gate ends at the checksum.
- `Intl` and `Date`: the wall time and the calendar (a function from day numbers to dates) are inputs of `nextRuns`.
- Floating point and ISO strings: readings are reals, live times integers, chart times reals; a NaN reading is a missing one.
- Machine words: CRC registers are sequences of 32 bits, so that the linear algebra is over Booleans.
- Cron text: fields are lists of parsed parts, so spellings such as leading zeros are the same part.
- Text inside a rule's values: a right-hand set is a list of numbers, an email's recipients a list, a webhook's body and extra JSON fields opaque.
- Series keys: a pair of device and metric instead of one joined string.
- The order in which a flush lists devices: batches are maps.
- Lost refresh responses, browsers without Web Locks, tabs closed while they hold the lock, and duplicated session storage: the code does not guard against them, so the step system has none.
- What the stream writer does after a restart: it never reads its own pending entries again.
- `touch_last_seen` and what `record_batch` does with the values it is told.
- Malformed stream entries: their ids wait for the next flush of real rows; how long is not bounded.
- ClearActionsStable.SecondSaveSame: for drafts the validator lets be saved; the condition on names is exact for what is loaded (`SecondLoadSame`) and not needed for what is saved, where values can coincide (`PaddedNameCoincides`).
- ClearActions.ClearActionsKept: for clear actions every field of which the editor can hold; `RewrittenSame` says exactly which those are.
- LiveBuffer.CoalescingRefinesDirect: asks for no tie with a pending reading; the exact condition is that of `CoalescingRuns.CoalescingAgreesExactly`.
- PartEdits.ReconcileSound: a fresh part of unknown driver must come with links to rows that stay, no other part's, since the source leaves such a part as it came.
- PartClashes.NewPartsSound: for one reading that all new parts want; with several, which rows each finds depends on all of them.
- A driver's label: a channel's proposed name, key and unit are data of the channel.
- Boards, pins, the I2C rows and part parameters of a hardware draft, and a row's fields that wiring never reads.
- TreeEdits.InsertMeans: for unique ids, which the editor's own ids are (`EditorRuns.RunKeepsForm`).
- The WebSocket URL and the unpacking of batch frames: easy members.
- Sketch generation, Alembic migrations, release packaging, unit tables and SRP-6a: easy, finite or textbook.
