# Bingux verification models

Dafny models of the parts of the Bingux repository that keep state or do geometry, with proofs of what
they are for. Each model follows its source file's branches and constants; loops and objects that change
in place are methods and classes, each tied to a function whose properties are proved as lemmas.

| files | models |
|---|---|
| `Hysteresis`, `Meter*`, `AudioMeter` | the audio meter daemon: callbacks, sweeps, the orphan reaper, streams and the hysteresis, against a server with first-in first-out queues of requests, replies and events |
| `Install*`, `Installer` | the applications-only install, its failure handler and the uninstall, on a tree of paths: `InstallTree`, `InstallRun` and `InstallSteps` the model and its invariant, `InstallRollback` a first install that fails, `InstallChain`, `InstallUpgrade` and `InstallRoundTrip` chains that succeed, `InstallWorn` the uninstall, `InstallShadow` and `InstallRetreat` upgrades that fail, `InstallFaults` where an install fails, `InstallCourse` installs of which some fail, `InstallLeftover` and `InstallRemains` what those leave behind |
| `FrameStrips` | the strips a window frame is read back in |
| `Text`, `Licence*` | licence expressions: normalising, splitting, simplifying and printing; `LicenceGiven` every way cargo gives a licence, `LicenceMix` choices without parentheses |
| `FloodFill`, `ChangedRegions` | grouping changed pixels |
| `EdgeMatching`, `BlockRelocation` | matching a frame's edges to the next one's |
| `TreeDiff` | comparing two captures of a window's tree |
| `DocumentSpacing` | the paragraph spacing pass and the undo stack |
| `RustTokens`, `CopyLint` | the scan for string literals in Rust files |
| `RustSyntax`, `RustEnds` | Rust's own tokens after the chapter "Tokens" of the Rust Reference, and where the scan's differ |
| `Basics` | what several of these share |

`dafny verify dfyconfig.toml` checks everything. Nothing here runs the modelled programs.

Some promises turn out not to hold on every input. The code is modelled as it is; each has a lemma that
says exactly when the promise holds, and a concrete input that breaks it.

| promise | holds if and only if | broken by |
|---|---|---|
| a failed first install leaves the tree as it was | the failing disk step, told from tree, plan and fault, is no mode change, strip or replace and no torn write (`InstallFaults.GivesBackIff`) | `InstallLimits.LeftoverExample` |
| installs and an uninstall give the tree back | no install stops shipping a path whose backup is on record (`InstallRoundTrip.ChainRoundTrip`) | `InstallLimits.LostBackupExample` |
| an uninstall after a failed upgrade gives the tree back | no backup was lost before, the failing disk step leaves no file, and with the files swapped in by then every recorded file is as recorded, all told from tree, plan and fault (`InstallCourse.FailedUpgradeTold`) | `InstallLimits.HalfUpgradeExample` |
| choices without parentheses keep their meaning | every disjunct meets every choice, and every selection of one option for each choice contains a disjunct (`LicenceMix.MixedPrecedence`) | `LicenceMix.MixedExample` |
| summarising per program first changes nothing | no program is without crates (`LicenceLaws.Composition`) | `LicenceMix.EmptyProgramExample` |
| a literal's line is the true one | no character literal before it holds a newline (`RustTokens.LineRightIff`) | `CopyLint.WrongLineExample` |
| a character token ends where the literal ends | the character is no escaped quote (`RustEnds.CharacterEndsRightIff`) | `RustEnds.EscapedQuoteExample` |
| a string's value is the one Rust gives it | it has no escape of two digits, no code point with underscores or more than eight digits and no carriage return in the white space behind a line's end (`RustEnds.ValueRightIff`) | `RustEnds.ValueExample` |
| a file is cut into Rust's tokens, so that the literals reported are Rust's | none of them is one of these: an escaped quote, an attribute with space before its bracket or a closing bracket inside it, a raw C string or a raw string that opens with more than twelve characters, an odd escape, a first line for the shell, a broken character, a word that runs into a byte string (`RustEnds.SameTokensIff`, `RustEnds.RustLiterals`) | `RustEnds.QuotesExample`, `RustEnds.AttributeExample` |
| a group's size is right to within one block | its first and last blocks have no more than a block empty, on each axis (`ChangedRegions.WithinOneBlockIff`) | `ChangedRegions.OffBySix` |
| a match of differing edges is reported | they are not text bands that differ in their lower end alone (`EdgeMatching.UnreportedIff`) | `EdgeMatching.UnreportedExample` |
| something is reported when rules moved together | near some candidate's step the first candidate of the scan does not meet every other (`BlockRelocation.NothingFoundIff`); of three rules that moved together one is always in a pair that is found (`BlockRelocation.BlockOfThree`) | `BlockRelocation.MissedBlock` |
| undo shows spaced paragraphs: they are spaced whenever no timer is out | no timer fires while the edit to redo next is one that was made on unspaced paragraphs (`DocumentSpacing.SpacedIff`); for all edits in an order of events, if and only if no timer fires, with something to redo, on contents no timer has reached (`DocumentSpacing.OrderIff`) | `DocumentSpacing.UnspacedExample` |

## Model

| member | source | states |
|---|---|---|
| Hysteresis.TurnsOnIff | native/audio-meter/main.c:326-342 | a meter turns active at a tick if and only if every tick across at least the last 250 ms found it inactive and at the enter level |
| Hysteresis.TurnsOffIff | native/audio-meter/main.c:326-342 | a meter turns inactive at a tick if and only if it was active and below the hold level at every tick for at least 1200 ms since the last sounding one |
| Hysteresis.OnPeriod | native/audio-meter/main.c:336-342 | between turning on and turning off at least 1200 ms pass |
| Hysteresis.OffPeriod | native/audio-meter/main.c:328-335 | between turning off and turning on at least 250 ms pass |
| MeterActivity.ActivityFollowsTrace | native/audio-meter/main.c:312-345 | in every run a surviving meter's activity is the hysteresis of exactly the samples its ticks took |
| MeterActivity.ActivityRule | native/audio-meter/main.c:312-345 | the on and off rules, as equivalences, for every meter in every reachable state and across list changes |
| MeterClock.NoWrapAround | native/audio-meter/main.c:311-362 | in every run no stored time is ahead of the clock, so no unsigned difference wraps |
| MeterWorld.StreamLifetime | native/audio-meter/main.c:105-147 | in every run a stream is unreferenced at most once, and in a final state exactly when it was dropped; a dropped stream that became ready is told to disconnect; no stream has two owners |
| MeterWorld.ReadersAlive | native/audio-meter/main.c:120-184 | a read callback that can fire belongs to a meter on the list whose stream it reads |
| MeterStreams.DropStreamOk | native/audio-meter/main.c:120-133 | dropping keeps the ownership invariant: one owner, no reader on a dropped stream |
| MeterStreams.RemoveMeterOk | native/audio-meter/main.c:134-147 | unlinking and freeing a meter keeps it |
| MeterStreams.SinkInfoOk | native/audio-meter/main.c:168-194 | creating a stream keeps it, whichever of its calls fails |
| MeterStreams.TickMetersOk | native/audio-meter/main.c:312-345 | the tick's walk over the list, which frees meters as it goes, keeps it |
| MeterConvergence.SweepRetiresExactly | native/audio-meter/main.c:195-204 | in every run a completed sweep marks removed exactly the meters no reply has named since it began |
| MeterConvergence.Convergence | native/audio-meter/main.c:195-255 | in every run, whatever sink inputs there were at its start: once the set of sink inputs is stable and a sweep that began with no stale reply in flight has completed, the live meters are exactly the server's sink inputs, from then on |
| MeterConvergence.ConvergenceAfterTwo | native/audio-meter/main.c:31-34 | the same with nothing asked of the replies in flight: once the set is stable, one sweep that has ended, well or badly, and a second that ends well |
| MeterConvergence.GhostMeterArises | native/audio-meter/main.c:31-34 | a run in which a late reply creates a meter after the remove event |
| MeterConvergence.GhostMeterPersists | native/audio-meter/main.c:241-255 | without a completed sweep no event ever removes such a meter |
| MeterReaper.ReaperKillsTwice | native/audio-meter/main.c:44-84 | in every run an index is killed exactly when two successive completed scans, begun at least 5000 ms apart, kept it and the earlier one did not kill it; both arrays stay within 64 |
| AudioMeter.Daemon.DropStreamAt | native/audio-meter/main.c:120-133 | the list update in place equals the modelled step |
| AudioMeter.Daemon.RemoveMeterById | native/audio-meter/main.c:134-147 | the loop removes the first meter with the id, as modelled |
| AudioMeter.Daemon.OnSinkInfo | native/audio-meter/main.c:168-194 | equals the modelled reply |
| AudioMeter.Daemon.EndSweep | native/audio-meter/main.c:195-204 | the loop retires what the model retires |
| AudioMeter.Daemon.OnInputInfo | native/audio-meter/main.c:205-240 | state and queries sent equal the modelled reply's |
| AudioMeter.Daemon.OnEvent | native/audio-meter/main.c:241-255 | equals the modelled event |
| AudioMeter.Daemon.TickAll | native/audio-meter/main.c:312-345 | the loop that removes while it walks equals the modelled tick |
| AudioMeter.Daemon.OnTick | native/audio-meter/main.c:307-370 | the whole tick with its sweep and scan |
| AudioMeter.Daemon.ReapItem | native/audio-meter/main.c:77-83 | one listed output against the fixed array of 64 |
| AudioMeter.Daemon.ReapEnd | native/audio-meter/main.c:56-76 | the nested loops kill and keep what the model says, in order |
| InstallTree.RenameGet | scripts/install-shell.py:848-850 | what every path shows after a rename with everything below it |
| InstallSteps.MoveStep | scripts/install-shell.py:848-850 | moving an entry to its backup keeps the run's invariant: the tree is the original with entries displaced and files and folders added |
| InstallSteps.MkdirStep | scripts/install-shell.py:858-860 | making a folder keeps it |
| InstallSteps.ReplaceStep | scripts/install-shell.py:869-871 | putting a temporary in place keeps it |
| InstallPlace.PlaceRun | scripts/install-shell.py:852-883 | installing one file keeps it, and says for every failing step what is left |
| InstallRollback.FirstInstallRollback | scripts/install-shell.py:835-908 | whichever step of a first install fails, the tree afterwards is the one before, but for the one file the failing step left and the folders that hold it |
| InstallRollback.HandlerRun | scripts/install-shell.py:898-908 | the handler undoes every run whose files are accounted for |
| InstallRollback.PruneRun | scripts/install-shell.py:903-907 | of the folders those stay that hold a file, also when the list repeats some |
| InstallFaults.AttemptTold | scripts/install-shell.py:847-897 | for any manifest in force: whether the install fails, whether the failing step leaves a file and what the recorded places hold by then are told by the script of disk steps |
| InstallFaults.GivesBackIff | scripts/install-shell.py:847-908 | told from the tree, the plan and the fault alone: a first install fails if and only if the script of its disk steps meets the fault, and the failed install gives back the very tree if and only if the failing step is not setting the mode, stripping or replacing, and no torn write |
| InstallLimits.LeftoverExample | scripts/install-shell.py:861-868 | a disk that fails after the temporary is written: the tree differs |
| InstallUpgrade.Upgrade | scripts/install-shell.py:826-897 | a successful install that ships again what has changed leaves its own manifest in force with every file as recorded; lost are the backups of the recorded paths it no longer ships |
| InstallChain.DropOldOk | scripts/install-shell.py:884-889 | exactly the files no longer shipped are removed, if none of them has changed |
| InstallWorn.UninstallStanding | scripts/install-shell.py:919-953 | uninstalling with every file gone or as recorded and every listed folder there gives the original tree, with the lost entries at their backups |
| InstallRoundTrip.ChainRoundTrip | scripts/install-shell.py:826-953 | after any chain of successful installs and one uninstall the tree is the original one if and only if no install stopped shipping a path with a recorded backup; so whenever every plan ships at least the paths before it |
| InstallLimits.LostBackupExample | scripts/install-shell.py:884-889 | a chain of two installs and an uninstall that does not give the tree back |
| InstallWorn.UninstallWorn | scripts/install-shell.py:919-953 | uninstalling when files changed, vanished or came along: the original tree with exactly the changed and the unrecorded files on top, the folders that hold them, and the originals of changed files at their backups |
| InstallWorn.UninstallWornIff | scripts/install-shell.py:919-953 | that is the original tree if and only if no backup was lost, every recorded file is gone or as recorded, and no other file came along |
| InstallShadow.FollowedIs | scripts/install-shell.py:846-897 | an attempt takes the same steps whatever folders it starts with on its list, and only adds to the list |
| InstallRetreat.AttemptBreaks | scripts/install-shell.py:847-898 | wherever an upgrade fails, every file is an old one, a new one noted as written or at a recorded place, or the one left behind; the manifest is untouched or torn |
| InstallRetreat.HandlerBroken | scripts/install-shell.py:898-908 | the handler then takes out what was written, brings back what this run moved and leaves the folders that hold a file |
| InstallRetreat.FailedUpgrade | scripts/install-shell.py:826-953 | after any failed upgrade the tree is the original with the earlier backups aside and, on top, recorded files as they were or replaced by the plan's, with the folders they need; an uninstall then gives the original tree if and only if the manifest is whole, nothing was lost, every recorded file is gone or as recorded and no temporary is left |
| InstallCourse.FailedUpgradeTold | scripts/install-shell.py:826-953 | the same told before the upgrade: it fails if and only if its script meets the fault, and an uninstall after it gives the original tree if and only if nothing was lost, the failing step leaves no file and the files swapped in by then have the recorded checksums |
| InstallCourse.CourseRoundTrip | scripts/install-shell.py:826-953 | for any course of installs in which those that fail leave no file and those that succeed ship again what has changed: an uninstall gives the original tree if and only if none that succeeded stopped shipping a path with a recorded backup and every recorded file is gone or as recorded at the end |
| InstallLeftover.StandsWithLeft | scripts/install-shell.py:898-908 | after a failed install that left its temporary the old manifest is in force over the tree with the temporary and its folders in it |
| InstallRemains.CourseLeftovers | scripts/install-shell.py:826-953 | for any course of installs in which those that fail leave the manifest whole and those that succeed ship again what has changed: an uninstall gives the original tree with exactly the temporaries the failed installs left, and the folders they need, on top, if and only if none that succeeded stopped shipping a path with a recorded backup and every recorded file is gone or as recorded at the end |
| InstallLimits.HalfUpgradeExample | scripts/install-shell.py:869-908 | an upgrade that fails between replacing a file and recording it, and an uninstall that leaves the new file and the user's own at its backup |
| InstallNames.PlainIsGood | scripts/install-shell.py:838-861 | destinations with ordinary names below one prefix never clash with backups, temporaries or the manifest |
| Installer.Installer.MoveAway | scripts/install-shell.py:848-851 | the loop moves entries in order until one fails, as modelled |
| Installer.Installer.MakeFolders | scripts/install-shell.py:853-860 | the walk up and the folders made on the way down are the modelled ones |
| Installer.Installer.HandleFailure | scripts/install-shell.py:898-908 | the three loops of the handler equal the modelled rollback |
| Installer.Installer.Install | scripts/install-shell.py:826-908 | the whole install equals the modelled one, in outcome and tree |
| Installer.Installer.Uninstall | scripts/install-shell.py:919-953 | the whole uninstall equals the modelled one |
| FrameStrips.StripsTile | native/frame/paint-gtk.c:218-279 | the strips lie inside the window and no pixel is in two |
| FrameStrips.StripsCover | native/frame/paint-gtk.c:218-279 | a pixel is in a strip if and only if it is in an expanded band or a bottom guard square, or the fallback reads everything |
| FrameStrips.NearBandIff | native/frame/paint-gtk.c:227-230 | the expanded bands are the frame's pixels and their eight neighbours |
| FrameStrips.StripsFit | native/frame/paint-gtk.c:242-279 | the bytes read never exceed width times height times four |
| FrameStrips.PlanStrips | native/frame/paint-gtk.c:218-269 | the code's order of clamps gives the modelled strips |
| FrameStrips.FramePaint | native/frame/paint-gtk.c:218-279 | the buffer agrees with a full download on every covered pixel and is unchanged elsewhere |
| LicenceSplit.SplitTopLevel | scripts/cargo-licenses.py:150-159 | the loop computes the modelled split |
| LicenceSplit.SplitPieces | scripts/cargo-licenses.py:150-159 | splitting joined pieces gives the pieces back |
| Licences.CollectTerms | scripts/cargo-licenses.py:162-170 | the recursive loop computes the modelled terms |
| LicenceLaws.TermsOfShow | scripts/cargo-licenses.py:162-170 | the terms of a written licence are its choices, nesting flattened |
| LicenceLaws.TermsOfPrint | scripts/cargo-licenses.py:162-186 | the terms of a printed non-empty kept set are that set |
| LicenceLaws.Composition | scripts/cargo-licenses.py:173-186 | with own licences, summarising per program and then together equals summarising all crates at once, character for character, if and only if no program has an empty summary |
| LicenceLaws.KeptMeaning | scripts/cargo-licenses.py:180-184 | dropping choices is absorption: the truth value stays under every assignment |
| LicenceLaws.Meaning | scripts/cargo-licenses.py:162-186 | the printed expression is grammatical and true exactly when all input licences are |
| LicenceMix.MixedPrecedence | scripts/cargo-licenses.py:162-170 | for any number of choices joined by AND without parentheses: the script's reading, which splits at AND first, agrees with that of Annex D of the SPDX Specification 2.3, where AND binds tighter, for all assignments if and only if every disjunct meets every choice and every selection of one option for each choice contains a disjunct |
| LicenceMix.MixedExample | scripts/cargo-licenses.py:162-170 | `MIT OR Apache-2.0 AND BSD-3-Clause` is not met by MIT as read, and is as written |
| LicenceMix.EmptyProgramExample | scripts/cargo-licenses.py:173-186 | one licence and a program without crates: summarised apart and together they differ |
| LicenceGiven.NormaliseKeeps | scripts/cargo-licenses.py:77-83 | a licence of any shape, its choices written with OR or slashes and blanks, in parentheses or not, with a blank and a marker behind it or not, becomes a written licence of the same meaning |
| LicenceGiven.NormalisedMeaning | scripts/cargo-licenses.py:77-186 | normalising, simplifying and printing any such licences together gives a grammatical expression that is true exactly when all of them are |
| LicenceNormalise.OneSpelling | scripts/cargo-licenses.py:77-83 | every spelling of a choice, with OR or slashes and with cargo's markers, becomes one |
| FloodFill.Fill | scripts/loop-check.py:108-121 | the stack fill ends and reaches exactly the start's connected component, with its tight box and the sum of its counts |
| ChangedRegions.Boxes | scripts/loop-check.py:100-122 | one tight box size for each connected component at distance two |
| ChangedRegions.BlockBoxes | scripts/loop-check.py:125-158 | one entry for each component of the blocks; the counts add up to the number of changed pixels |
| ChangedRegions.EachInOneGroup | scripts/loop-check.py:100-158 | every point is in exactly one group, shared exactly with the points linked to it |
| ChangedRegions.ChainInOneGroup | scripts/loop-check.py:125-136 | pixels linked by steps of at most a block lie in one group of blocks |
| ChangedRegions.SizeWithinBlocks | scripts/loop-check.py:125-136 | a group's given size is its pixels' own plus what its first and last blocks hold beside them |
| ChangedRegions.WithinOneBlockIff | scripts/loop-check.py:125-136 | it is right to within one block if and only if those hold no more than a block beside them, on each axis |
| ChangedRegions.OffBySix | scripts/loop-check.py:125-158 | two pixels at an edge of blocks of four are given as eight wide |
| EdgeMatching.Match | scripts/frame-walk.py:220-258 | the matches are one-to-one, same-kind and within 160 px, and every compatible pair has an end matched at no greater cost |
| EdgeMatching.DiffFeatures | scripts/frame-walk.py:204-258 | the same for two frames; nothing is reported when no edge is gone |
| EdgeMatching.OneStableMatching | scripts/frame-walk.py:226-237 | without ties there is one such matching, so the sort's order of equals is the only freedom |
| EdgeMatching.UnreportedIff | scripts/frame-walk.py:238-246 | a match of differing edges is unreported if and only if they are text bands that differ in their lower end alone |
| EdgeMatching.UnreportedExample | scripts/frame-walk.py:238-246 | a text band that grew downwards and is not reported |
| BlockRelocation.Relocated | scripts/frame-walk.py:294-345 | the rounds end; each is the longest choice left and has two pairs or more; they stop exactly when no choice has two; nothing is reported if and only if, near every candidate's step, the first candidate meets every other |
| BlockRelocation.PlayedPairs | scripts/frame-walk.py:306-345 | over all rounds the pairs are candidates, moved more than 160 px, and no rule is in two of them |
| BlockRelocation.PlayedRound | scripts/frame-walk.py:308-345 | every round's pairs are unused before it and within 2 px of one step |
| BlockRelocation.FindBest | scripts/frame-walk.py:308-327 | the loop over the steps finds the modelled choice |
| BlockRelocation.BestIsLongest | scripts/frame-walk.py:308-327 | that is the choice at some candidate's step, and no candidate's step offers a longer one |
| BlockRelocation.StuckIff | scripts/frame-walk.py:312-326 | a step offers fewer than two pairs if and only if its first free candidate, in the order of the scan, meets every other |
| BlockRelocation.OverIff | scripts/frame-walk.py:308-329 | the rounds stop if and only if that is so at every candidate's step |
| BlockRelocation.NothingFoundIff | scripts/frame-walk.py:306-329 | nothing is found if and only if it is so with nothing used |
| BlockRelocation.FewerThanTwo | scripts/frame-walk.py:318-326 | the chooser takes fewer than two if and only if the first free pair meets every other |
| BlockRelocation.MissedBlock | scripts/frame-walk.py:286-329 | two rules, listed as a frame lists them, that moved together by 200 and 201 px: every step offers fewer than two pairs and no round is played |
| BlockRelocation.MissedIsMet | scripts/frame-walk.py:306-329 | every pair of a block of which no rule is found is met by the first candidate left near it |
| BlockRelocation.BlockOfThree | scripts/frame-walk.py:264-329 | of three rules or more that moved together at least one is in a pair that is found |
| TreeDiff.Signatures | scripts/structure-stability.py:112-121 | the running counts give every node its path signature |
| TreeDiff.SignaturesDiffer | scripts/structure-stability.py:112-121 | two nodes of a tree have different signatures |
| TreeDiff.Diff | scripts/structure-stability.py:164-247 | the findings are exactly the outermost shifts, the appearances and the disappearances, each once |
| TreeDiff.Antichain | scripts/structure-stability.py:171-223 | no reported shift or appearance lies below another |
| TreeDiff.SelfDiff | scripts/structure-stability.py:164-247 | a capture compared with itself gives nothing |
| TreeDiff.RigidMove | scripts/structure-stability.py:153-203 | moving one subtree as a whole gives at most its root's shift |
| DocumentSpacing.UndoTransparency | native/text-layout/document-spacing.h:32-65 | in every run of edits, undos and redos with passes anywhere, text, history, step counts and modified state are those of the run without passes |
| DocumentSpacing.ApplyKeeps | native/text-layout/document-spacing.h:32-65 | one pass keeps text and step counts; a second changes nothing |
| DocumentSpacing.NothingDiscarded | native/text-layout/document-spacing.h:47-52 | with a toolkit that forgot nothing when undo is turned off the pass would give the same document, for every document |
| DocumentSpacing.StyledAlways | native/text-layout/document-spacing.h:33-35 | with a pass after every edit, undo and redo only ever show spaced paragraphs |
| DocumentSpacing.SpacedWhenIdle | native/text-layout/document-spacing.h:70-81 | in every run of edits, undos and redos with the timer firing at any time after them, paragraphs are spaced whenever no timer is out and nothing can be redone |
| DocumentSpacing.UndoShows | native/text-layout/document-spacing.h:33-35 | in every run, with something to redo, the paragraphs shown are those the edit to redo next was made on |
| DocumentSpacing.SpacedIff | native/text-layout/document-spacing.h:33-81 | for every run: they are spaced whenever no timer is out if and only if no timer fires while the edit to redo next is one made on unspaced paragraphs |
| DocumentSpacing.OrderIff | native/text-layout/document-spacing.h:33-81 | for every order of events: they are so for every choice of edits if and only if no timer fires, with something to redo, on contents no timer has reached |
| DocumentSpacing.SpacedWhenEditsWait | native/text-layout/document-spacing.h:33-81 | they are so if every edit is made with no timer out, whenever the undos and redos come |
| DocumentSpacing.UnspacedExample | native/text-layout/document-spacing.h:32-46 | two edits and an undo before the timer: unspaced paragraphs with no timer out |
| DocumentSpacing.TextDocument.Space | native/text-layout/document-spacing.h:32-65 | the loops over paragraphs and the undo calls equal the modelled pass |
| DocumentSpacing.Spacing.Schedule | native/text-layout/document-spacing.h:70-73 | a timer is set unless one is out or the pass itself made the change |
| DocumentSpacing.Spacing.Fire | native/text-layout/document-spacing.h:74-81 | one pass runs and its own changes set no timer |
| RustTokens.ExpectedLines | scripts/copy-lint.py:163-269 | every literal's line is the true one less the newlines in character literals before it |
| RustTokens.LineRightIff | scripts/copy-lint.py:201-211 | a literal's line is right if and only if no character literal before it holds a newline |
| RustEnds.StringEndsRight | scripts/copy-lint.py:224-255 | a string token ends at the first quote with an even number of backslashes before it |
| RustEnds.ValueRightIff | scripts/copy-lint.py:230-252 | the value of a string is Rust's if and only if none of its escapes is odd; otherwise it is longer |
| RustEnds.ValueExample | scripts/copy-lint.py:247-249 | an escape of two digits, spelled out |
| RustEnds.CharacterEndsRightIff | scripts/copy-lint.py:201-211 | for every character literal the scan's token is that literal if and only if the character is no escaped quote |
| RustEnds.EscapedQuoteExample | scripts/copy-lint.py:201-211 | an escaped quote, one character short |
| RustEnds.TrapIff | scripts/copy-lint.py:171-268 | at every place of every text the scan's token is Rust's in kind, end and value if and only if none of eight things stands there |
| RustEnds.SameTokensIff | scripts/copy-lint.py:163-269 | the scan cuts a file into Rust's tokens if and only if none of those is one of the eight |
| RustEnds.RustLiterals | scripts/copy-lint.py:163-164 | the literals reported are then those of Rust's tokens outside comments, attributes and test blocks |
| RustEnds.QuotesExample | scripts/copy-lint.py:201-255 | two quoted characters in brackets: the scan reports a string and Rust has none |
| RustEnds.AttributeExample | scripts/copy-lint.py:190-200 | an attribute with a bracket in a string: the scan reports a string and Rust has none outside it |
| CopyLint.Cut | scripts/copy-lint.py:171-268 | every branch advances and cuts the modelled token; the line counter misses only character literals |
| CopyLint.StepTracks | scripts/copy-lint.py:257-267 | the depth and the depths of test blocks stand for the stack of open blocks after every token, for all texts |
| CopyLint.TracksTell | scripts/copy-lint.py:165-169 | those depths rise, none is above the depth, and there is one exactly inside an open test block |
| CopyLint.Literals | scripts/copy-lint.py:163-269 | the scan reports exactly the literals outside every open test block, in order, each with its decoded value, the text before it and its line |
| CopyLint.WrongLineExample | scripts/copy-lint.py:201-211 | arguments of a macro, an escaped quote before a line's end, after which a string gets line 1 in place of 2 |

## Left out

- PulseAudio, GTK, GSK, Qt and numpy themselves: only the states and effects the code relies on are modelled (stream states, first-in first-out replies, the crop of a render, an undo stack of contents, a sort whose order of equals is open).
- The meter's JSON output, sample reading and peak arithmetic: a peak is below, at the hold level or at the enter level. End replies that have no effect are not queued.
- Replies that fail to be sent leave no trace; the server answers every other request in order.
- The frame's mask shader and corner exponent: the guard squares are proved, not what the shader covers.
- `install_user`, systemd units, symbolic links, file modes, strip and cache refreshes of the installer; checksums are an arbitrary function of the contents, and the manifest's format and prefix checks are one test that can fail.
- An interrupt between a system call of the installer and the line that notes it: a step happens with its note or not at all.
- InstallWorn.UninstallWorn: no destination has a cache file's name in its path, because an uninstall also removes a file of that name when it is the last in its folder; no shipped file has such a name.
- InstallWorn.UninstallWornIff: as InstallWorn.UninstallWorn.
- InstallRetreat.FailedUpgrade: as InstallWorn.UninstallWorn.
- InstallCourse.FailedUpgradeTold: as InstallWorn.UninstallWorn.
- InstallCourse.CourseRoundTrip: as InstallWorn.UninstallWorn. A course with an install that drops a changed file from its plan is not covered: that file stays.
- InstallRemains.CourseLeftovers: the same, and a torn manifest is not covered: after it nothing can be installed or uninstalled.
- RustEnds.SameTokensIff: which characters make up a word is one parameter for the scan and for Rust, and so is the character of a code point.
- Installer.Installer.HandleFailure: a disk step of the handler that fails itself is not modelled; every one of them succeeds.
- Installer.Installer.Uninstall: the same for the steps of an uninstall.
- CopyLint.Literals: on a code point above 0x10FFFF the scan stops with an error; here the escape gives some character.
- Hash collisions are allowed: an unchanged file is one whose checksum is the recorded one.
- The licence of a crate without one, which the script calls UNKNOWN, and a licence with WITH: such an exception stays one atom.
- `frame-walk.py`: finding edges in an image, thinning out double lines, the text bands that appeared and the grouping of findings into files.
- `structure-stability.py`: labels and rounding in findings.
- DocumentSpacing.UndoTransparency: which undo step the document was saved at is not modelled; an undo or redo is given the modified state it leads to.
- The scripts that run captures and report on them, the rule tables, the packers and the small native helpers are not modelled.
