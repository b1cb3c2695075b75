# xrandrw, verified

A Dafny model of the parts of xrandrw that keep state and make promises no finite test can settle: the
relocation coordinator that drives dwm, the identity store and its lock protocol, the apply pass with its
placement policy, and the watch loop. Verify it with `dafny verify dfyconfig.toml`.

## What is modelled

| file | what it models |
|---|---|
| `Outputs.dfy` | `Output`, CRTC liveness, the text behind the topology digest |
| `CrashGuard.dfy` | the count-based crash guard, and the dwm step (`sendmon`, `focus(NULL)`, `arrange(NULL)`) it predicts |
| `Matching.dfy` | binding dwm monitors to outputs, and the inverse table |
| `Desk.dfy` | dwm behind its socket, X focus and configure, RandR and `/proc` as one adversarial environment |
| `RestorePlan.dfy` | the pure planning helpers and the readers of a `get_monitors` reply |
| `Relocate.dfy` | `RelocationCoordinator`, method by method |
| `Laptop.dfy` | the two-screen desktop that the examples start from |
| `RelocateRuns.dfy` | what the coordinator guarantees over any run of settles |
| `Identity.dfy` | `ensure_profile` on the two dictionaries of the state |
| `Sightings.dfy` | the identity map over any history |
| `Preference.dfy`, `Dock.dfy` | `set_pref`, and a small docking history the counterexamples start from |
| `Placement.dfy`, `Externals.dfy`, `Reapply.dfy` | the placement policy, `_place_externals`, and a second apply |
| `Layouts.dfy`, `Argv.dfy` | configured layouts, their match and their xrandr command line; how xrandr reads it |
| `Apply.dfy` | `apply_once` over heads that may change at any read and any command |
| `Locks.dfy`, `StateFile.dfy` | the two-lock protocol as process steps, then with the real updates |
| `Watch.dfy`, `WatchRuns.dfy` | debounce, bounce hold-down and one wakeup; the loop over any number of them |
| `Wrappers.dfy`, `Ordering.dfy` | an option type; `sorted` on strings |

The environment is adversarial unless a contract says otherwise. A `Desk` may ignore a focus request,
let it land late, fail any read, reject or lose any verb, and report success for a verb that did
nothing; `honest` says an accepted verb took effect, `truthful` that identity reads answer and answer
rightly, which is about `/proc` alone and says nothing of dwm, and `cooperative` adds to both that focus
lands, reads answer and verbs are accepted. The desk keeps a record of its own of what it was asked:
every command with the desktop it met, every geometry sent, and every read with its answer, whether of
an identity, a window, the monitors, the outputs, dwm's availability or a wish to stop, besides every
request for the focus. Drops, keeps, refusals and what a capture holds are stated over that record, not
over what the coordinator says of itself. A `Screen` may change its heads at every read, at every
command and between wakeups, fail any read and ignore any command; it too records every answer and every
command, and a clock records every wait. What `select` returns is an input of the watch loop. That
nothing interfered (`Apply.Calm`) or that every read answered (`Apply.Clear`) is said of one stretch of
one run, from one moment to another, never of a screen's whole life. dwm is taken to have one selected
client, on its selected monitor, so a window confirmed as selected is the one verbs act on; where the
confirmation accepts more than that is `RestorePlan.FallbackGap`. What stays still during one settle is
listed at the end. `RelocateRuns.Run` shows that whatever the coordinator does is a run in the sense of
`RelocateRuns.IsRun`, over which the main results are stated; `RelocateRuns.RoundTripHappens` is such a
run with an unplug and a replug in it, and one that ends with the window home.

## What the proofs found

Each promise that the code does not keep has an input at which it fails and the exact condition under which
it holds.

- `_selected_confirmed` accepts a window that only a monitor other than the selected one remembers as its
  selection: `RestorePlan.ConfirmedButNotActedOn` is a reply where every verb would hit another window, and
  `RestorePlan.FallbackGap` says exactly when that happens. With a single global selection it cannot
  (`RestorePlan.ReportShowsSelection`).
- `_safe_capture` promises that a failed capture keeps the previous baseline, but `capture_windows` answers
  an unreachable dwm or RandR with an empty list instead of raising, and passes over a window whose own
  reads fail, so the baseline is replaced by whatever answered: `Relocate.BaselineLost` loses a record to
  monitors that do not answer, `Relocate.BaselineLostToOneRead` to a single failed `get_dwm_client` although
  monitors and outputs answer. By `Relocate.BaselineKeptExactly` the record of a window that is there as
  before stays if and only if `get_monitors`, RandR and both reads of that very window answered, on any desk.
  The model follows the code.
- `present_connectors` promises its callers that an unreadable topology holds no apply down. At the edge
  gate of `_bounce_settled` it does, because the whole baseline then counts as vanished:
  `Watch.UnknownIsHeld` is an input with the default times, and by `Watch.UnknownHeldExactly` the promise
  holds only if the read answered or an earlier gate had decided already.
- `set_pref` can undo itself: its loop goes on calling `ensure_profile`, and a later output can fold the
  profile it just wrote into one that prefers another side. `Preference.PreferenceLost` is the input,
  `Preference.PreferenceSaved` the exact condition over any list of outputs.
- Inside one apply a later external can merge away the id an earlier one was given; the stale id then stays
  on the recency stack until the next apply. `Reapply.PoppedInTheSameApply` is a docked state where it
  happens, and `Reapply.SecondApply` says that a second apply changes nothing exactly if no external takes
  the merge branch on an id that was already handed out.
- A displaced record says what was recorded last (`RelocateRuns.RecordIsLatest`): while its output is away,
  losing another output on which the last baseline shows the process replaces it, and the window later goes
  there. The round trip rules out exactly that (`RelocateRuns.Undisturbed`), and nothing else that may
  happen in between.
- The crash guard refuses more than it must when a monitor does not tile, and never less
  (`CrashGuard.GuardPredictsCrash`, `CrashGuard.GuardIsConservativeWithoutTiling`). So a window alone on its
  screen may stay where dwm evacuated it, with its record kept and its tags restored; with up to 64 windows
  that is the only way to be kept (`RelocateRuns.KeptOnlyAtRisk`), and a window on every tag of the other
  screens rules it out (`RelocateRuns.AccompaniedComesHome`).
- Below RandR 1.5 the events of the X connection are not drained, and a connection with something to read on
  it is no reason to look: only a slow poll that times out is (`WatchRuns.SlowPollOnly`).
- A record whose output is back but binds to no monitor is dropped after `tag` alone, its window not moved
  (`RelocateRuns.UnboundIsForgotten`). Two windows of one process share one record, so only the last one
  captured is restored (`Relocate.ByProcess`). The origin of a lit head is not in the digest
  (`Outputs.MovesAreInvisible`).

## Model

| member | source | states |
|---|---|---|
| `Outputs.TopologyHash` | src/xrandrw/xrandr.py:196-208 | the loop over sorted names joins exactly the canonical listing of connected-or-lit heads |
| `Outputs.TextIsCanonical` | src/xrandrw/xrandr.py:196-208 | two topologies have the same digest text if and only if they agree on which outputs are connected or lit and on their connected flag and mode |
| `Outputs.MovesAreInvisible` | src/xrandrw/xrandr.py:202-207 | moving a lit head leaves the digest text as it was |
| `Outputs.TextOfOneHead` | src/xrandrw/xrandr.py:196-208 | the text of a dark and of a lit head, spelled out |
| `Outputs.HeadsAre` | src/xrandrw/xrandr.py:210-231 | connected, lit and unhealed heads in terms of flag, mode and origin: lit needs both, unhealed is connected without both |
| `Ordering.Lexicographic` | src/xrandrw/xrandr.py:196-203 | the order behind every `sorted`: the first differing character decides, and a prefix comes first |
| `CrashGuard.GuardPredictsCrash` | src/xrandrw/relocate.py:340-376 | for every dwm whose selected client is the window: the hop ends dwm iff the guard refuses it and some monitor left with one tiled client tiles; with every monitor tiling the guard is exact, otherwise sound |
| `CrashGuard.GuardIsConservativeWithoutTiling` | src/xrandrw/relocate.py:1037-1057 | a dwm that survives a hop the guard refuses, so the tiling condition is needed |
| `CrashGuard.GuardFailsSafe` | src/xrandrw/relocate.py:356-369 | unresolved windows, a lone monitor and a missing destination are refused |
| `CrashGuard.SelectionLost` | src/xrandrw/relocate.py:370-371 | after `sendmon` and `focus(NULL)` nothing is selected iff the guard's visible count on the source, without the window, is zero |
| `CrashGuard.PostTiledIsReal` | src/xrandrw/relocate.py:372-375 | each `post_tiled` entry is what `tile` counts on that monitor after `sendmon` |
| `CrashGuard.CountsInWords` | src/xrandrw/relocate.py:320-337 | the visible count is zero iff no other client has a tag in view, the tiled count one iff exactly one such client is not floating |
| `CrashGuard.RingStep` | src/xrandrw/relocate.py:365-367 | the guard's modular destination is dwm's walk along its monitor list, both ways |
| `Matching.CountingIsBinding` | src/xrandrw/windows.py:359-392 | counting candidates with the connected tie-break is the documented rule: a unique geometry match, or the unique connected one among several |
| `Matching.MatchMonitors` | src/xrandrw/windows.py:359-392 | every monitor is mapped, to an output iff the rule binds it there |
| `Matching.BoundIsLit` | src/xrandrw/windows.py:359-392 | the output a monitor is bound to has that monitor's origin for its position and that monitor's size for its mode |
| `Matching.ConnectorTable` | src/xrandrw/relocate.py:722-723 | the inverted table is sound and complete, and the exact inverse when no two monitors share a geometry |
| `Matching.BindingsAreSeparate` | src/xrandrw/windows.py:308-392 | monitors with different geometry never bind to one output |
| `Matching.MirrorIsRefused` | src/xrandrw/windows.py:308-392 | two connected candidates bind to nothing |
| `Desktop.HopIsSendMon` | src/xrandrw/relocate.py:1040-1043 | the environment's hop on its two tables is the explicit `sendmon`: the same monitors, clients and order |
| `Desktop.GuardCoversAll` | src/xrandrw/relocate.py:1105-1116 | a passing guard on the replies excludes a crash for every dwm that could have given them |
| `Desktop.CompanyPermits` | src/xrandrw/relocate.py:366-376 | the guard never refuses a hop that leaves a visible window behind on the source |
| `RestorePlan.SelectedConfirmed` | src/xrandrw/relocate.py:70-87 | true iff some monitor reports the window as its selected client |
| `RestorePlan.FallbackGap` | src/xrandrw/relocate.py:79-87 | exactly when a confirmed window is not the one verbs act on |
| `RestorePlan.ConfirmedButNotActedOn` | src/xrandrw/relocate.py:79-87 | a two-monitor reply on which window 7 is confirmed and every verb would hit window 5 |
| `RestorePlan.ReportShowsSelection` | src/xrandrw/relocate.py:70-87 | with one global selection, confirmed and acted-on are the same |
| `RestorePlan.SelectedFocus` | src/xrandrw/relocate.py:98-119 | None iff no monitor has a selected client; otherwise a monitor with one, where the selected monitor takes precedence and the first one wins among equals |
| `RestorePlan.GeometryRoundTrip` | src/xrandrw/relocate.py:292-311 | subtracting the target's origin and dwm adding it give the absolute geometry back |
| `RestorePlan.TagmonDirection` | src/xrandrw/relocate.py:379-413 | one forward hop iff there are two monitors, the target exists and is elsewhere; never negative |
| `RestorePlan.PlanShape` | src/xrandrw/relocate.py:416-446 | at most one move first, then the saved tags, a toggle only on a difference, a geometry last and only for a floating record |
| `RestorePlan.HopsIsModular` | src/xrandrw/relocate.py:399-405 | the forward distance on the ring is (target - current) mod n |
| `Relocate.Coordinator.FocusAndConfirm` | src/xrandrw/relocate.py:840-894 | true only after a read with this window selected, false only when dwm did not answer or six reads in a row showed another selection; no window, tag or floating geometry moves meanwhile |
| `Relocate.Coordinator.ReadMonitorStates` | src/xrandrw/relocate.py:1118-1150 | the exact states of all monitors; nothing iff there are more than 64 windows or a read was not answered |
| `Relocate.Coordinator.TagmonWouldCrash` | src/xrandrw/relocate.py:1105-1116 | on any desk: refuses iff a read was not answered, there are more than 64 windows, or the crash predicate holds of the real state; on a cooperative desk with at most 64 windows exactly when the crash predicate holds |
| `Relocate.Coordinator.TagmonToTarget` | src/xrandrw/relocate.py:1152-1212 | in any environment at most n hops, each forward, confirmed and guarded, OK iff a read showed the window on the target, and otherwise for a reason that was read: an unconfirmed focus, an unanswered read, a refusal, a command not accepted or n hops made; on a cooperative desk exactly (target - current) mod n hops, unless it read a state, with the window selected and still elsewhere, on which the guard refuses the next one |
| `Relocate.Coordinator.StepTag` | src/xrandrw/relocate.py:923-927 | unless the focus was not confirmed these tags are sent to this selected window; accepted iff dwm accepted them |
| `Relocate.Coordinator.StepToggle` | src/xrandrw/relocate.py:929-935 | unless the focus was not confirmed a toggle is sent to this selected window; nothing else of it changes |
| `Relocate.Coordinator.StepConfigure` | src/xrandrw/relocate.py:937-960 | unless the target has no origin or the focus was not confirmed, exactly the saved geometry is sent, relative to the target, and lands there when it fits; nothing else moves |
| `Relocate.Coordinator.ExecutePlan` | src/xrandrw/relocate.py:1005-1035 | on any desk: success iff the tags were accepted on this window and, if it had to move, a read showed it on its target; whatever came of the single steps, tags, due toggle and geometry were all sent unless a focus was not confirmed; failure has a reason that was read. On a cooperative desk success brings the window home, failure means that the guard refused a hop on a state that was read, and either way the window has its tags and floating state and was sent its geometry |
| `Relocate.Coordinator.RestoreOne` | src/xrandrw/relocate.py:975-1035 | the identity is read; if it does not come back as the record's the record is dropped with no control call, and with a truthful `/proc` only if the window is not that process's. Otherwise it is dropped iff the tags were accepted and a read showed the window on its target, and kept only for a reason that was read; kept or dropped, everything the record asks for was sent unless a focus was not confirmed or the window not read |
| `Relocate.Coordinator.FocusmonTo` | src/xrandrw/relocate.py:818-838 | at most n forward moves of the selected monitor, none from the target and no window touched; on a cooperative desk it ends on the target after exactly the forward distance |
| `Relocate.Coordinator.RestoreFocus` | src/xrandrw/relocate.py:779-816 | no window is touched; on any desk the steady-state window is asked for if it is there and the monitors answer; on a cooperative desk it is selected again, or if it is gone its monitor is |
| `Relocate.Coordinator.RestoreReturned` | src/xrandrw/relocate.py:690-772 | a whole cycle touches only live windows of returned records, against the real connector table; each drop and each keep has its reason at the end of the cycle, every handled live window was sent what its record asks for, and every geometry sent is that of a record at its target; unless a stop was asked for, every returned record is handled; and focus is given back if it was taken |
| `Relocate.Coordinator.RecordDisplaced` | src/xrandrw/relocate.py:656-688 | adds exactly the snapshot's records on the removed outputs |
| `Relocate.Coordinator.SweepDisplaced` | src/xrandrw/relocate.py:637-654 | every record is looked up: one stays iff the lookup gave its start time; with a truthful `/proc` exactly the dead go, whatever dwm does |
| `Relocate.Coordinator.CaptureWindows` | src/xrandrw/windows.py:480-611 | given what dwm and RandR answered: unanswered means empty; answered means, on any desk, that every window is asked for and that a window is recorded if and only if its own identity and client reads answered, each record showing its window as it is with the output its own monitor binds to; the focus kept is the selected window |
| `Relocate.Coordinator.SafeCapture` | src/xrandrw/relocate.py:600-626 | on any desk: a process is in the new baseline if and only if dwm and RandR answered and so did both reads of some window of it, and its record is that window as it is; nothing of the previous baseline is kept for its own sake |
| `Relocate.BaselineKeptExactly` | src/xrandrw/relocate.py:600-626 | record by record, on any desk: the record of a window that is there as before stays iff `get_monitors`, RandR and both of that window's own reads answered |
| `Relocate.BaselineLost` | src/xrandrw/windows.py:480-611 | one window on an external monitor, as the baseline says, and no answer from dwm: the new baseline is empty and the record gone |
| `Relocate.BaselineLostToOneRead` | src/xrandrw/windows.py:560-574 | the same window; monitors, outputs and its process answer and its own client read does not: the record is gone all the same |
| `Relocate.Coordinator.OnSettled` | src/xrandrw/relocate.py:522-596 | which branch ran and with what: idle only if switched off, dwm not reached or the outputs not read; otherwise what was lost and regained, what was recorded, what the cycle and the sweep dropped and why; a settle that lost an output freezes the baseline, and any other takes a new one from exactly the windows that answered |
| `RelocateRuns.UnplugReplug` | src/xrandrw/relocate.py:522-596 | in any cooperative run: from a baseline, through an unplug and any settles whatever, to the settle at which the output returns, a surviving window is back with tags, floating state and fitting geometry and its record is gone, unless it was elsewhere and the guard refused it a hop on a state that was read then; only then is the record kept, and even then the window has its tags and floating state; a floating window is sent its geometry, a tiled one none |
| `RelocateRuns.KeptOnlyAtRisk` | src/xrandrw/relocate.py:340-376 | with at most 64 windows, a record of such a run is kept only if the crash predicate held on a state that was read, with nothing else visible on the window's screen |
| `RelocateRuns.AccompaniedComesHome` | src/xrandrw/relocate.py:1152-1212 | with at most 64 windows and, on every other monitor, a window on every tag that is not the settle's own, the window is back and its record gone |
| `RelocateRuns.RoundTripHappens` | src/xrandrw/relocate.py:522-596 | such runs exist, with a window to move back; with company on the other screen it ends on its own monitor and its record is gone |
| `RelocateRuns.UnboundIsForgotten` | src/xrandrw/relocate.py:436-441 | a returned record whose output binds to no monitor is dropped on a cooperative desk, with no move planned, once the window has its tags and floating state |
| `RelocateRuns.Run` | src/xrandrw/relocate.py:522-596 | over any sequence of desktops and on the most hostile desk, what the coordinator does is a run: each settle as `OnSettled` says, each starting from the ledger and the records of the one before |
| `RelocateRuns.SettleTouches` | src/xrandrw/relocate.py:690-772 | whatever the desk does, a settle touches only windows of the records it returns while they are those processes', every command hits one of them and is no hop dwm can die of, and without a focus request nothing happens at all |
| `RelocateRuns.EveryCommandIsOwn` | src/xrandrw/relocate.py:840-973 | every command of a run was issued by some settle of it, on a live window of a record that settle returned |
| `RelocateRuns.RunLosesNone` | src/xrandrw/relocate.py:637-654 | a record displaced or recorded at any settle of a run is still there at any later one, or some settle in between dropped it for one of three reasons |
| `RelocateRuns.RecordIsLatest` | src/xrandrw/relocate.py:684-688 | a record that is still there says exactly what was recorded last |
| `RelocateRuns.RemovalsShareABaseline` | src/xrandrw/relocate.py:585-596 | while every settle loses an output the baseline stays what it was before the first, and each records from it everything that stood on what it lost |
| `RelocateRuns.NoneLost` | src/xrandrw/relocate.py:733-759 | a record gone after a settle was looked up and not found (with a truthful `/proc`: dead), or its window was asked for its process and was not the record's (with a truthful `/proc`: it is not), or its tags were accepted on its live window and its monitor reached |
| `RelocateRuns.StaleUntouched` | src/xrandrw/relocate.py:896-905 | a window that is no live window of a returned record keeps monitor, tags and floating state, and no command is issued for it or on it |
| `Identity.Store.EnsureProfile` | src/xrandrw/state.py:91-134 | the in-place loops compute the specified union and keep map and profiles in agreement |
| `Identity.Store.Merge` | src/xrandrw/state.py:100-114 | the popped profile's names, missing EDID and missing side go to the kept one and every key is re-pointed |
| `Identity.EnsureAgrees` | src/xrandrw/state.py:91-134 | every mapped id has a profile whose names are duplicate-free and exactly the connectors mapped to it, whose EDID maps back and is missing only if no EDID does |
| `Identity.NewIdIsUnused` | src/xrandrw/state.py:115-123 | a new profile never takes over an id in use |
| `Identity.EnsureAgain` | src/xrandrw/state.py:91-134 | seeing the same output again changes nothing |
| `Identity.SidesSurvive` | src/xrandrw/state.py:108-122 | a non-empty side of a surviving profile is never overwritten |
| `Identity.EdidsSurvive` | src/xrandrw/state.py:106-107 | a known EDID of a surviving profile is never replaced |
| `Identity.NewcomerIsAlone` | src/xrandrw/state.py:115-128 | an output never seen before gets an unused id, seeded by its EDID or else its name, a profile of its own with the default side, and nothing else changes |
| `Identity.SideKeptUnlessOverruled` | src/xrandrw/state.py:100-113 | a class keeps its side iff the sighting does not fold it into a profile with another side |
| `Sightings.AlwaysAgrees` | src/xrandrw/state.py:91-137 | the agreement over every history of sightings, preferences and reads |
| `Sightings.IdentityIsConnectivity` | src/xrandrw/state.py:84-134 | two identities share a profile iff a chain of sightings links them; classes never split |
| `Sightings.OrderDoesNotMatter` | src/xrandrw/state.py:84-134 | the grouping depends on what was seen together, not on the order |
| `Preference.SetPref` | src/xrandrw/cli.py:33-57 | a side other than the four or no match stores nothing; a connected output matches by name, by `edid:` or by `conn:`; otherwise what is saved, with map and profiles in agreement |
| `Preference.PreferenceKept` | src/xrandrw/cli.py:44-50 | the preference is what gets saved when no later output overrules it |
| `Preference.PreferenceSaved` | src/xrandrw/cli.py:44-50 | for every list: the preference is saved iff no later output overrules it, or the last one that does folds its class into a profile that prefers that very side |
| `Preference.PreferenceLost` | src/xrandrw/cli.py:44-56 | a reachable state and two outputs for which the stored preference is lost before the save |
| `Placement.AssignPlacements` | src/xrandrw/policy.py:22-42 | the loop with its `occupied` dictionary computes the specified slots |
| `Placement.StoredSideIsHonoured` | src/xrandrw/policy.py:32-40 | one of the first four gets its stored side, if that is right, left, above or below, iff no earlier item holds it |
| `Placement.WishOrFirstFree` | src/xrandrw/policy.py:36-38 | an invalid preference asks for the right; a taken wish gives way to the first of right, left, above, below that nobody holds |
| `Placement.SlotOf` | src/xrandrw/policy.py:31-41 | from the fifth on each item goes right of the one before it |
| `Placement.SlotsNeverCollide` | src/xrandrw/policy.py:22-42 | no two items get the same side of the same anchor |
| `Placement.AnchorsReachPrimary` | src/xrandrw/policy.py:33-41 | following anchors ends at the primary |
| `Externals.PlaceExternals` | src/xrandrw/apply.py:109-147 | the loops compute the specified state and slots and keep the agreement and a duplicate-free stack |
| `Externals.StackIsRecency` | src/xrandrw/apply.py:121-130 | the stack is the old one restricted to current ids, in its order, with newcomers on top in theirs, no duplicates, and restacking is idempotent |
| `Externals.PlanIsCompleteAndCollisionFree` | src/xrandrw/apply.py:129-147 | exactly the externals are placed, once each even when several share a profile, without collision |
| `Externals.PlanHonoursAgeAndSides` | src/xrandrw/apply.py:129-137 | newest attachment first, alphabetical within a profile; each of the first four gets its profile's stored side iff no earlier slot holds it |
| `Reapply.ApplyKeepsSides` | src/xrandrw/apply.py:117-119 | over all externals of an apply, a profile there before and after keeps its non-empty preferred side |
| `Reapply.SecondApply` | src/xrandrw/apply.py:117-137 | a second apply leaves the stack alone iff no external of the first took the merge branch on an id handed out before; then state and slots are the same too |
| `Reapply.PoppedInTheSameApply` | src/xrandrw/apply.py:117-119 | a docked state and two externals for which the second apply changes the stack |
| `Reapply.WithoutMerges` | src/xrandrw/apply.py:117-119 | an apply that never takes the merge branch is repeatable |
| `Layouts.MatchIsFirstLeast` | src/xrandrw/profiles.py:94-98 | a layout matches iff one is for exactly the connected set; the alphabetically first name wins, then the first configured |
| `Layouts.BuildXrandrArgv` | src/xrandrw/profiles.py:102-116 | the loop emits the options of the outputs in order |
| `Argv.ArgvLightsTheLayout` | src/xrandrw/profiles.py:102-116 | read back by xrandr's own option rules the command line is well formed and says of each output exactly what the layout does: mode, primary, position or relation, scale, rotation; so it gives a mode to exactly the layout's connectors |
| `Apply.ScrubStale` | src/xrandrw/apply.py:83-106 | switches off exactly the disconnected heads that are lit |
| `Apply.PrimaryOf` | src/xrandrw/apply.py:283-303 | the primary begins with eDP, LVDS, DSI or DPI iff some connected name does; it is the alphabetically first of those, or else of all |
| `Apply.PlaceConnected` | src/xrandrw/apply.py:278-305 | the primary, then its externals in order, together exactly the connected heads, and the state to save is the one they were computed from |
| `Apply.ApplyOnce` | src/xrandrw/apply.py:149-312 | whatever the heads do: it completes iff the lock was free and both reads answered; a bail touches nothing; on all three paths completion switches off exactly the heads stale on its second read and lights exactly those connected on it, never the same head twice, with the layout's command or the primary and the slots of the saved state sent last; and if nothing interfered since that read, exactly the connected heads have a mode and an origin |
| `Locks.StepKeepsInv` | src/xrandrw/state.py:39-82 | every step of every process keeps locks, tickets, read values and file consistent |
| `Locks.FileIsTheFold` | src/xrandrw/state.py:39-82 | after any interleaving with crashes and failed saves the file is never partial and is the fold, in lock order, of exactly the committed updates |
| `Locks.CommittedExactly` | src/xrandrw/state.py:39-60 | a process has committed iff it made its replacement |
| `Locks.PendingCommits` | src/xrandrw/state.py:66-82 | a process on its way to a replacement that ends without a failed save, a crash or a failed read has committed, if its update has something to store |
| `Locks.BeginsOrGivesUp` | src/xrandrw/apply.py:167-187 | an apply takes the apply lock if it is free and otherwise ends at once, without waiting |
| `Locks.NoDeadlock` | src/xrandrw/apply.py:167-187 | a blocked process waits for a holder that can move |
| `Locks.EveryStepIsProgress` | src/xrandrw/apply.py:276-312 | every run ends |
| `Locks.FileKeeps` | src/xrandrw/state.py:56-82 | what every update keeps, the file keeps in every run |
| `StateFile.StoredStateIsAlwaysGood` | src/xrandrw/cli.py:38-56 | applies and preference commands in any interleaving leave a file whose map and profiles agree and whose stack has no duplicate |
| `StateFile.ApplyIsUpdate` | src/xrandrw/apply.py:278-305 | what a completed apply has to save is its update of the state it loaded |
| `StateFile.PreferenceIsUpdate` | src/xrandrw/cli.py:38-56 | what the preference command saves is its update of the state it loaded, or nothing when there is none |
| `Watch.WindowIsIncremental` | src/xrandrw/watch.py:140-142 | filtering what was kept is filtering the whole history |
| `Watch.RecentExactly` | src/xrandrw/watch.py:142 | exactly the moments at most the window back are kept, in order |
| `Watch.Watcher.DebounceMs` | src/xrandrw/watch.py:134-149 | `times` is the full history within the window, backoff stays in 0..1000, the wait in 150..1150 |
| `Watch.Watcher.Suspicious` | src/xrandrw/watch.py:105-116 | holds down iff an apply was recent, there is a baseline, and the one read then made misses a connector of it; without the first two it reads nothing |
| `Watch.UnknownHeldExactly` | src/xrandrw/watch.py:42-55 | an unreadable topology holds nothing down iff the read answered or an earlier gate had let the apply through |
| `Watch.UnknownIsHeld` | src/xrandrw/watch.py:105-116 | with the default times, a second after an apply, a failed read holds down |
| `Watch.Watcher.Hold` | src/xrandrw/watch.py:120-132 | terminates; every wait is at most 150 ms and followed by a re-read unless it was cut short; the waits sum to at most the hold; it suppresses iff a re-read gave the absorbed digest, gives up only when stopped or the hold is over, and raises only at a failed read |
| `Watch.Watcher.BounceSettled` | src/xrandrw/watch.py:105-132 | it delays or suppresses only if, at one moment since it was called, an apply was within the suspect time and a read since missed a connector of the baseline; with those gates open the apply goes ahead only if that read missed none, the hold was sat out, or the program is being stopped |
| `Watch.Watcher.Apply` | src/xrandrw/apply.py:276-312 | one attempt: not completed, the state file is as it was; completed on the placement path, the file holds the state the sent slots were computed from unless the save failed; on the other paths it is as it was |
| `Watch.Watcher.AfterApply` | src/xrandrw/watch.py:204-257 | the hook runs between the settled read and the decision; whatever the heads do, the last read decides: a head connected and not lit on it is retried iff fewer than three retries were spent and otherwise absorbed as given up; without one the settled digest is absorbed |
| `Watch.Watcher.ApplyIfChanged` | src/xrandrw/watch.py:159-257 | nothing is done unless two reads at least 150 ms apart both gave another digest; a wakeup is suppressed only within the suspect time of an apply whose baseline lost a connector, and an apply goes ahead then only after the hold; only a digest read after a completed apply is absorbed, and with a dark head only as given up; the hook follows such an apply, once, and nothing else; it bails only if the lock was held or a read failed, which leaves the budget alone; if nothing interfered it ends healed |
| `Watch.Watcher.HealThenRest` | src/xrandrw/watch.py:159-257 | two wakeups during which nothing interferes, reads answer and the lock is free: the first ends with the digest of the heads as they are, healed if it applied, and the second does nothing |
| `WatchRuns.BoundedRetries` | src/xrandrw/watch.py:234-251 | between two absorptions at most three completed applies leave the digest unabsorbed |
| `WatchRuns.DarkIsNotAbsorbed` | src/xrandrw/watch.py:234-257 | over any run and whatever the heads do: a wakeup that absorbed with a connected head dark had spent the whole budget or could not read the heads |
| `WatchRuns.EveryCommandIsAnApplys` | src/xrandrw/apply.py:211-312 | every command of a run was sent by a completed apply of some wakeup, and all it sent switched off exactly the heads stale on its own second read and lit exactly those connected on it |
| `WatchRuns.CalmWakeupHeals` | src/xrandrw/watch.py:159-257 | in any run: a wakeup without interference, bail or failed read ends holding the digest of the heads as they are, absorbs iff that was not held already, and then lit = connected |
| `WatchRuns.NothingIsLost` | src/xrandrw/watch.py:185-203 | over any run: the held digest becomes another only at a wakeup that read it right after an apply of its own completed, and right before the hook |
| `WatchRuns.HooksOnlyAfterApplies` | src/xrandrw/watch.py:185-233 | in everything a run did, in order, the hook never runs but right after the read that follows a completed apply |
| `WatchRuns.WatchLoop` | src/xrandrw/watch.py:259-312 | one wakeup for each time `select` returned, unless a read raised, and only a signal or a connection without RandR events is skipped; what the loop does is a run, the heads changing at will during and between wakeups: the whole log is the first read and then the events of each wakeup, as its step says, and the digest and budget at the end are those of the steps |

## Left out

- Sockets, JSON shapes and timeouts of dwm-ipc, Xlib, sysfs, subprocesses and `/proc` parsing: their results are inputs, and a malformed reply is a failed one.
- The fields a malformed `get_monitors` reply may lack, except a missing monitor geometry.
- `randr_resources_to_outputs`, `read_edids` and the `/proc` parsers: outputs, EDIDs and process identities are inputs.
- SHA-1: digests are their texts and profile ids their seeds, so collisions are excluded; EDIDs are 40 hex digits and connector names are not.
- `last_seen`, logging, wallpaper, touch remapping, sd_notify, watchdog, signals other than as a wakeup, argument and configuration parsing.
- Fullscreen, per-monitor selections of dwm, EDID checks on restore and several windows of one process: the code does not handle them.
- dwm's position for a floating window that overflows its monitor, and border widths.
- Rotation, scale and pixel positions of placed outputs: the code promises distinct (side, anchor) slots only.
- The order in which dictionaries yield their entries: restores, scrubs and externals are taken in any order.
- `Layout` strings: their parser is not modelled; `Parsed` records that it lets only the four relations through.
- Exceptions that leave `apply_once` (an apply-lock error other than a symlink, X never coming up) end the daemon and are not a result here.
- The relocation hook inside the watch loop is one event; what it does is `Relocate.dfy`.
- During one settle the desktop moves only where the coordinator makes it: no window opens, closes, changes monitor, tags or floating state or is moved by itself, no process ends or changes its windows, and no output or monitor comes or goes. Only the selection, the views and the tiled geometry drift, and only while focus is being asked for; between the reads that confirm a focus and the verb nothing moves. Between settles everything may.
- `stop_evt` at the head of the watch loop: what `select` returned is taken to end when the loop is told to stop.
- A watch run loads the state its own applies saved; other writers of the state file are in `StateFile.dfy`.
- Identity.Store.EnsureProfile: expects the stored map and profiles to agree, which every state the program writes does; a hand-edited file that breaks this makes the source raise.
- StateFile.StoredStateIsAlwaysGood: starts from a file the program could have written, or none.
- Desktop.Desk.Configure: says nothing about where a window lands that does not fit.
- Relocate.Coordinator.TagmonToTarget: called with the direction the plan gives, which is always one forward hop, and with two monitors or more.
- Locks.FileIsTheFold: a crash loses what the process had not replaced; power loss between the rename and the disk is not modelled.
