# ECOMRecorder recording and naming policy in Dafny

ECOMRecorder is an Android app for e-commerce packing stations. A barcode
scan names a video of the parcel being packed or returned. This project
models the policy the app's screens keep in mutable fields and callbacks:
which clip is kept, renamed or deleted, when a recording restarts, and how
file names are formed. It then proves properties of that policy.

Each screen is a pure transition function from its state and one event to
the next state and a list of platform calls. The platform calls are effect
values: begin, stop, pause, resume, mute, close, rename, delete, toast,
activity result, finish. The backend is an abstract stream of
Start/Pause/Resume/Finalize events. A `Finalize` carries whether it reported
an error and whether the media-store call made while handling it threw.

Modules:

- `Wrappers` holds `Option`.
- `Text` holds Kotlin's string helpers: suffix tests, `trim()`,
  `isNullOrBlank()`, `Int` rendering and string order.
- `Naming` holds the scan-code sanitiser, the manual file-name rule and the
  JPEG extension rule.
- `VideoQuality` holds the stored quality name and the quality dialog.
  Both video screens share it.
- `Recording` holds sessions, backend events and the effect vocabulary.
- `ScanDecoder` holds the keystroke-to-scan decoder of the continuous screen.
- `ContinuousCapture` is the continuous screen as written. A `World` pairs it
  with the set of live backend sessions, so that "at most one recording" can
  be stated.
- `GuardedCapture` is the continuous screen with the three races of the
  findings below closed. Its invariant keeps one live recording at most.
- `SingleCapture` is the single-shot video screen.
- `MainFlow` is the start screen: the scan, record, scan loop, the
  permission gate and the battery indicator.
- `FolderList` is the media browser.
- `ImageCapture` is the still-image screen.

The source cited below is the ECOMRecorder repository, with paths given
relative to its root.

## Model

| member | source | states |
|---|---|---|
| Text.AppendedEndsWith | app/src/main/java/com/accli/ecomrecorder/MainActivity.kt:430 | a name followed by a suffix ends with that suffix, so `"$sanitized.mp4"` passes `endsWith(".mp4")` |
| Text.EndsWithIgnoresCase | app/src/main/java/com/accli/ecomrecorder/FolderListActivity.kt:372-380 | an exact suffix match is also a match with `ignoreCase = true` |
| Text.LowerAscii | app/src/main/java/com/accli/ecomrecorder/FolderListActivity.kt:372-380 | case folding lowers exactly the ASCII capitals and leaves every other character alone |
| Text.TrimStart | app/src/main/java/com/accli/ecomrecorder/ContinuousCaptureActivity.kt:523 | the result is a suffix of the input, everything dropped in front is whitespace, and the result does not start with whitespace |
| Text.TrimEnd | app/src/main/java/com/accli/ecomrecorder/ContinuousCaptureActivity.kt:523 | the result is a prefix of the input, everything dropped behind is whitespace, and the result does not end with whitespace |
| Text.TrimSpec | app/src/main/java/com/accli/ecomrecorder/MainActivity.kt:424 | `trim()` yields a contiguous piece of the entry, cuts only whitespace, and leaves no whitespace at either end of a non-empty result |
| Text.TrimUnpadded | app/src/main/java/com/accli/ecomrecorder/MainActivity.kt:425 | an entry with no whitespace at either end is its own trim |
| Text.TrimEmptyIffAllWhitespace | app/src/main/java/com/accli/ecomrecorder/MainActivity.kt:424-428 | the trimmed entry is empty exactly when every character of the entry is whitespace |
| Text.NatToDecimal | app/src/main/java/com/accli/ecomrecorder/MainActivity.kt:325 | the rendering is a non-empty string of decimal digits |
| Text.NatToDecimalRoundTrip | app/src/main/java/com/accli/ecomrecorder/MainActivity.kt:325 | reading the rendered digits back gives the number: the label shows the percentage itself |
| Text.IntToDecimal | app/src/main/java/com/accli/ecomrecorder/MainActivity.kt:325 | the rendering of an `Int` is non-empty, starts with `-` exactly when the number is negative, and its digits (after the sign) read back as the number's magnitude |
| Text.LexLeTotal | app/src/main/java/com/accli/ecomrecorder/FolderListActivity.kt:177 | any two names are comparable under the order `sortedBy { it.name }` uses |
| Text.LexLeTransitive | app/src/main/java/com/accli/ecomrecorder/FolderListActivity.kt:177 | that order is transitive |
| Naming.Sanitize | app/src/main/java/com/accli/ecomrecorder/MainActivity.kt:455-457 | the result has the input's length, holds only `[a-zA-Z0-9._-]`, keeps every allowed character in place and puts `_` where each other character was |
| Naming.SanitizeIdempotent | app/src/main/java/com/accli/ecomrecorder/MainActivity.kt:455-457 | sanitising a sanitised name changes nothing |
| Naming.SanitizeKeepsSafe | app/src/main/java/com/accli/ecomrecorder/MainActivity.kt:455-457 | the sanitiser leaves a name unchanged exactly when the name is already safe |
| Naming.SanitizePreservesMp4Ending | app/src/main/java/com/accli/ecomrecorder/MainActivity.kt:429-430 | the sanitised name ends in `.mp4` exactly when the entry does, so the test on the sanitised name is a test on the entry |
| Naming.ManualFilenameSpec | app/src/main/java/com/accli/ecomrecorder/MainActivity.kt:424-430 | a blank entry is rejected and only a blank one; every accepted name ends in `.mp4`; it is the trimmed entry when that ends in `.mp4`, else the sanitised trimmed entry plus `.mp4` |
| Naming.ManualFilenameSkipsSanitizer | app/src/main/java/com/accli/ecomrecorder/MainActivity.kt:429-432 | the entry `a b.mp4` becomes the file name `a b.mp4`, which is not a safe name |
| Naming.ManualMp4KeptAsTyped | app/src/main/java/com/accli/ecomrecorder/MainActivity.kt:429-432 | any unpadded entry ending in `.mp4` is used exactly as typed |
| Naming.ManualFilenameFixedIsSafe | app/src/main/java/com/accli/ecomrecorder/MainActivity.kt:424-430 | with the sanitised name used in both branches, blank entries are still the only ones rejected and every name is safe, ends in `.mp4` and starts with the sanitised entry |
| Naming.EnsureJpegExtension | app/src/main/java/com/accli/ecomrecorder/SingleImageCaptureActivity.kt:332-338 | the result always has a `.jpg`/`.jpeg` suffix (any case) and starts with the name; it is the name itself exactly when the name already had such a suffix, and otherwise exactly the name followed by `.jpg` |
| Naming.EnsureJpegExtensionIdempotent | app/src/main/java/com/accli/ecomrecorder/SingleImageCaptureActivity.kt:332-338 | applying the rule twice is applying it once |
| Naming.PhotoFilename | app/src/main/java/com/accli/ecomrecorder/SingleImageCaptureActivity.kt:162 | the photo's name is the requested name, or the timestamp name when none was requested, kept as it is when it has a JPEG suffix and otherwise followed by exactly `.jpg` |
| Naming.PhotoFilenameStable | app/src/main/java/com/accli/ecomrecorder/SingleImageCaptureActivity.kt:162 | a name the photo rule produced is kept unchanged when requested again, whatever the timestamp |
| VideoQuality.QualityFromName | app/src/main/java/com/accli/ecomrecorder/SingleCaptureActivity.kt:216-224 | every stored name selects one of UHD, FHD, HD, SD, and an unknown name selects HD |
| VideoQuality.ShortName | app/src/main/java/com/accli/ecomrecorder/SingleCaptureActivity.kt:194-200 | every quality is stored under a known short name, and a quality that is never offered is stored as `HD` |
| VideoQuality.ShortNameRoundTrip | app/src/main/java/com/accli/ecomrecorder/SingleCaptureActivity.kt:194-224 | an offered quality survives the trip through its short name, and a known short name survives the trip through its quality |
| VideoQuality.QualityOptions | app/src/main/java/com/accli/ecomrecorder/SingleCaptureActivity.kt:175-178 | every option is a supported, offered quality, listed in the order UHD, FHD, HD, SD |
| VideoQuality.QualityOptionsExact | app/src/main/java/com/accli/ecomrecorder/SingleCaptureActivity.kt:175-178 | a quality has a line exactly when it is supported and offered |
| VideoQuality.OptionsOfCovers | app/src/main/java/com/accli/ecomrecorder/SingleCaptureActivity.kt:175-178 | every supported quality of the candidate list gets a line |
| VideoQuality.IndexOfFirst | app/src/main/java/com/accli/ecomrecorder/SingleCaptureActivity.kt:187 | `indexOfFirst` finds the first line with the quality, and `-1` (`None`) means no line has it |
| VideoQuality.SelectedIndex | app/src/main/java/com/accli/ecomrecorder/SingleCaptureActivity.kt:186-188 | the preselected line is the first one with the current quality, or line 0 when no line has it |
| VideoQuality.OpenQualityDialog | app/src/main/java/com/accli/ecomrecorder/ContinuousCaptureActivity.kt:192-233 | the dialog is refused exactly while recording; nothing happens exactly when there is no back camera; "No supported qualities found" exactly when none of the four is supported; the dialog is shown whenever one is, listing the options and preselecting the stored quality when the camera supports it, and the first line when it does not |
| VideoQuality.ChooseQuality | app/src/main/java/com/accli/ecomrecorder/ContinuousCaptureActivity.kt:238-249 | picking a line stores a known short name that reads back as that line's quality |
| Recording.CountBegins | app/src/main/java/com/accli/ecomrecorder/ContinuousCaptureActivity.kt:406-417 | the count of begun sessions is zero exactly when no session is begun, and never exceeds the number of calls |
| Recording.CountBeginsAppend | app/src/main/java/com/accli/ecomrecorder/ContinuousCaptureActivity.kt:490-494 | counting begun, renamed and deleted sessions distributes over the handler's concatenated calls |
| ScanDecoder.DecodeKey | app/src/main/java/com/accli/ecomrecorder/ContinuousCaptureActivity.kt:519-531 | non-down events change nothing and are passed on; a non-ENTER press appends its character exactly when it is a letter, digit, `-`, `_` or `.`; ENTER is consumed, empties the buffer and emits the trimmed buffer exactly when that is non-empty |
| ScanDecoder.NoEnterAccumulates | app/src/main/java/com/accli/ecomrecorder/ContinuousCaptureActivity.kt:527-529 | without ENTER nothing is emitted and exactly the accepted characters are appended, in order |
| ScanDecoder.NoEnterPrefix | app/src/main/java/com/accli/ecomrecorder/ContinuousCaptureActivity.kt:519-531 | keys before the first ENTER act only through the characters they leave in the buffer |
| ScanDecoder.EnterSplits | app/src/main/java/com/accli/ecomrecorder/ContinuousCaptureActivity.kt:522-526 | decoding splits at an ENTER: one scan of the trimmed buffer when non-empty, then decoding continues from an empty buffer |
| ScanDecoder.DecodeKeyWellFormed | app/src/main/java/com/accli/ecomrecorder/ContinuousCaptureActivity.kt:519-531 | one key keeps the buffer free of rejected characters and emits only a well-formed scan |
| ScanDecoder.ScansAreWellFormed | app/src/main/java/com/accli/ecomrecorder/ContinuousCaptureActivity.kt:519-531 | every scan the decoder ever emits is non-empty, made of accepted characters and free of whitespace at both ends |
| ContinuousCapture.StartRecording | app/src/main/java/com/accli/ecomrecorder/ContinuousCaptureActivity.kt:387-417 | with no bound camera nothing happens; otherwise exactly one fresh session begins and becomes the reference, and nothing is renamed or deleted |
| ContinuousCapture.StopAndForget | app/src/main/java/com/accli/ecomrecorder/ContinuousCaptureActivity.kt:144-147 | stopping issues one stop of the referenced session, if any, and clears only the reference |
| ContinuousCapture.ProcessScan | app/src/main/java/com/accli/ecomrecorder/ContinuousCaptureActivity.kt:502-509 | with no recording nothing changes; with one, the name becomes the code plus `.mp4`, a restart is queued, one stop is issued and the reference is dropped |
| ContinuousCapture.SecondScanIsNoOp | app/src/main/java/com/accli/ecomrecorder/ContinuousCaptureActivity.kt:502-509 | a scan right after a scan changes nothing and issues nothing |
| ContinuousCapture.FinishSegment | app/src/main/java/com/accli/ecomrecorder/ContinuousCaptureActivity.kt:463-490 | a clean finish with a pending name renames the output to it and never deletes, with the toast telling whether the update threw; without a pending name it deletes and never renames; an error neither renames nor deletes, closes the referenced recording and keeps the pending name |
| ContinuousCapture.RenameClip | app/src/main/java/com/accli/ecomrecorder/ContinuousCaptureActivity.kt:463-476 | the rename of the output and exactly one of "Saved as" and "Saved (rename failed)", by whether the update threw |
| ContinuousCapture.DeleteClip | app/src/main/java/com/accli/ecomrecorder/ContinuousCaptureActivity.kt:477-483 | the delete of the output, with "Recording discarded (not scanned)" exactly when the delete did not throw |
| ContinuousCapture.OnFinalize | app/src/main/java/com/accli/ecomrecorder/ContinuousCaptureActivity.kt:453-497 | after any finalize there is no queued restart and no pause; a queued restart with a bound camera begins exactly one session and makes it the reference, otherwise none begins and the reference is null; an error keeps the pending name, a clean finish clears it |
| ContinuousCapture.FinalizeFollowsPolicy | app/src/main/java/com/accli/ecomrecorder/ContinuousCaptureActivity.kt:462-494 | the finalize's calls begin with the file policy's, and the restart adds no rename and no delete |
| ContinuousCapture.AbandonRecording | app/src/main/java/com/accli/ecomrecorder/ContinuousCaptureActivity.kt:548-566 | leaving or destruction with a recording clears the pending name and the restart and stops it; without one nothing happens |
| ContinuousCapture.PauseToggles | app/src/main/java/com/accli/ecomrecorder/ContinuousCaptureActivity.kt:133-137 | the pause button resumes a paused recording, pauses a running one, and does nothing without a recording |
| ContinuousCapture.LeaveThenFinalizeDiscards | app/src/main/java/com/accli/ecomrecorder/ContinuousCaptureActivity.kt:548-566 | leaving or destruction while recording, then that recording's clean finish: the output is deleted, nothing is renamed and nothing restarts |
| ContinuousCapture.ScanCutsAndRestarts | app/src/main/java/com/accli/ecomrecorder/ContinuousCaptureActivity.kt:502-509 | a scan while recording, then its clean finish: one stop, the segment renamed to the code plus `.mp4`, nothing deleted, and exactly one new recording begun and referenced |
| ContinuousCapture.ManualStopDiscards | app/src/main/java/com/accli/ecomrecorder/ContinuousCaptureActivity.kt:139-153 | "Stop & Discard" with nothing pending, then the clean finish: the output is deleted and nothing restarts |
| ContinuousCapture.OnKeyEnterScans | app/src/main/java/com/accli/ecomrecorder/ContinuousCaptureActivity.kt:522-526 | ENTER after a non-blank buffer is `processScan` of the trimmed buffer |
| ContinuousCapture.KeysWhileIdleDoNothing | app/src/main/java/com/accli/ecomrecorder/ContinuousCaptureActivity.kt:502-531 | with no recording, any keys issue no call and change nothing but the buffer |
| ContinuousCapture.RunKey | app/src/main/java/com/accli/ecomrecorder/ContinuousCaptureActivity.kt:519-531 | a key event changes only the screen, never the set of live sessions |
| ContinuousCapture.RunCaptureTapped | app/src/main/java/com/accli/ecomrecorder/ContinuousCaptureActivity.kt:139-153 | the capture button with no reference begins one session and adds it to the live sessions |
| ContinuousCapture.InitialIsIdle | app/src/main/java/com/accli/ecomrecorder/ContinuousCaptureActivity.kt:65-77 | a freshly created screen with its camera bound is idle |
| ContinuousCapture.StartThenScanAState | app/src/main/java/com/accli/ecomrecorder/ContinuousCaptureActivity.kt:502-531 | start then the scan of `A`: the session is stopping, `A.mp4` is pending and a restart is queued |
| ContinuousCapture.ManualStartDuringCut | app/src/main/java/com/accli/ecomrecorder/ContinuousCaptureActivity.kt:139-153 | the capture button between a scan's stop and its finalize begins a second session while the first is still live |
| ContinuousCapture.RestartAfterCut | app/src/main/java/com/accli/ecomrecorder/ContinuousCaptureActivity.kt:490-494 | the clean finalize of the cut session leaves the manual session live but no longer referenced, and begins and references a third |
| ContinuousCapture.ManualStartOrphansRecording | app/src/main/java/com/accli/ecomrecorder/ContinuousCaptureActivity.kt:139-153 | witness: from any idle screen, start, scan `A`, capture button: two sessions live; after the first finalize two are still live and the older has no reference |
| ContinuousCapture.ErrorDuringCutKeepsName | app/src/main/java/com/accli/ecomrecorder/ContinuousCaptureActivity.kt:485-494 | an error finalize of the cut session keeps the pending name, the restarted session inherits it, and its "Stop & Discard" renames instead of deleting |
| ContinuousCapture.ErrorKeepsStalePendingName | app/src/main/java/com/accli/ecomrecorder/ContinuousCaptureActivity.kt:485-494 | witness: from any idle screen, the clip stopped with "Stop & Discard" after a failed cut is renamed `A.mp4` |
| ContinuousCapture.LeaveDuringCut | app/src/main/java/com/accli/ecomrecorder/ContinuousCaptureActivity.kt:548-566 | leaving between a scan's stop and its finalize does nothing, and the finalize still begins a new session |
| ContinuousCapture.LeaveDuringCutStillRestarts | app/src/main/java/com/accli/ecomrecorder/ContinuousCaptureActivity.kt:548-566 | witness: from any idle screen, leaving the app during a cut still starts a recording |
| GuardedCapture.StopReferenced | app/src/main/java/com/accli/ecomrecorder/ContinuousCaptureActivity.kt:502-509 | a stop clears the reference and remembers the stopped session; without a reference nothing happens |
| GuardedCapture.FilePolicy | app/src/main/java/com/accli/ecomrecorder/ContinuousCaptureActivity.kt:462-490 | corrected file policy: clean finishes as written; an error renames and deletes nothing; every rename, delete and close is about the finalized session |
| GuardedCapture.GuardedFinalize | app/src/main/java/com/accli/ecomrecorder/ContinuousCaptureActivity.kt:453-497 | the corrected finalize: the file policy's calls come first, the pending name is always consumed, a session referenced other than the finalized one stays referenced, and a session begins only when a restart is queued, the camera is bound, no other stop is outstanding and no other session is referenced |
| GuardedCapture.InitialInv | app/src/main/java/com/accli/ecomrecorder/ContinuousCaptureActivity.kt:65-77 | the created screen satisfies the invariant |
| GuardedCapture.InvAtMostOne | app/src/main/java/com/accli/ecomrecorder/ContinuousCaptureActivity.kt:139-153 | the invariant bounds the backend to one live session |
| GuardedCapture.StepKeepsInv | app/src/main/java/com/accli/ecomrecorder/ContinuousCaptureActivity.kt:133-566 | every enabled event keeps the invariant, so the corrected screen never has two live recordings |
| GuardedCapture.NoStartWhileStopping | app/src/main/java/com/accli/ecomrecorder/ContinuousCaptureActivity.kt:139-153 | while a stop is outstanding the capture button starts nothing |
| GuardedCapture.RenameOnlyForStoppedSession | app/src/main/java/com/accli/ecomrecorder/ContinuousCaptureActivity.kt:463-490 | a rename happens only for the session the screen stopped with a name pending, and no name survives any finalize |
| GuardedCapture.LeaveDuringCutCancels | app/src/main/java/com/accli/ecomrecorder/ContinuousCaptureActivity.kt:548-566 | leaving during a cut cancels the restart and the name: the finalize deletes and starts nothing |
| GuardedCapture.CleanFinishAgrees | app/src/main/java/com/accli/ecomrecorder/ContinuousCaptureActivity.kt:453-497 | with nothing racing, the corrected finalize issues exactly the calls of the screen as written |
| SingleCapture.Start | app/src/main/java/com/accli/ecomrecorder/SingleCaptureActivity.kt:330-438 | with no bound camera nothing happens; otherwise one fresh session begins and becomes the reference |
| SingleCapture.StopKeeping | app/src/main/java/com/accli/ecomrecorder/SingleCaptureActivity.kt:443-446 | `stopRecordingAndFinish` stops the referenced session and clears only the reference; it does not end the screen |
| SingleCapture.StopDiscarding | app/src/main/java/com/accli/ecomrecorder/SingleCaptureActivity.kt:459-475 | leaving and destruction with a recording mark the clip for discard and stop it; without a recording nothing happens |
| SingleCapture.ExitDiscarding | app/src/main/java/com/accli/ecomrecorder/SingleCaptureActivity.kt:134-137 | "Discard & Exit" marks the clip for discard unconditionally, stops the referenced recording if there still is one, and drops the reference |
| SingleCapture.KeepClip | app/src/main/java/com/accli/ecomrecorder/SingleCaptureActivity.kt:417-432 | a non-blank name renames the output, with "Saved as" or "Saved (rename failed)" by whether the update threw; a blank or missing name shows "Video saved"; either way nothing is deleted and the calls end with result OK and finish |
| SingleCapture.Finalize | app/src/main/java/com/accli/ecomrecorder/SingleCaptureActivity.kt:395-436 | a clean finish marked for discard deletes, reports canceled and finishes, changing nothing but the pause flag; any other clean finish keeps the clip, reports OK, finishes and drops the reference; an error only closes the referenced recording and drops it |
| SingleCapture.DiscardClip | app/src/main/java/com/accli/ecomrecorder/SingleCaptureActivity.kt:407-415 | the delete of the output, then result canceled and finish, with no rename |
| SingleCapture.CloseCurrent | app/src/main/java/com/accli/ecomrecorder/SingleCaptureActivity.kt:434-435 | `recording?.close()` closes the referenced session, if any |
| SingleCapture.ButtonsAct | app/src/main/java/com/accli/ecomrecorder/SingleCaptureActivity.kt:114-126 | the capture button stops a live recording without marking it for discard and starts one otherwise; pause and resume act only on a live recording |
| SingleCapture.DiscardingStopCancels | app/src/main/java/com/accli/ecomrecorder/SingleCaptureActivity.kt:128-146 | a discarding stop then the clean finish deletes the clip and reports canceled |
| SingleCapture.ExitConfirmMarksNextClip | app/src/main/java/com/accli/ecomrecorder/SingleCaptureActivity.kt:134-137 | a "Discard & Exit" confirmed after the recording already ended still marks the screen: the next recording started from it is deleted by its clean finish, with result canceled |
| SingleCapture.ButtonStopKeeps | app/src/main/java/com/accli/ecomrecorder/SingleCaptureActivity.kt:417-432 | a button stop then the clean finish keeps the clip and reports OK, never canceled; it renames to the name when that is not blank and shows "Video saved" otherwise |
| SingleCapture.ErrorReportsNothing | app/src/main/java/com/accli/ecomrecorder/SingleCaptureActivity.kt:405 | a finish with an error sets no result, does not end the screen, and drops the reference |
| MainFlow.ScanResultStartsSafeCapture | app/src/main/java/com/accli/ecomrecorder/MainActivity.kt:64-77 | `RESULT_FIRST_USER` opens the name dialog and only it does; a capture starts only for `RESULT_OK` with a code, under the sanitised code of the same length; every other result, including `RESULT_OK` without a code, does nothing |
| MainFlow.FilenameEnteredStartsOne | app/src/main/java/com/accli/ecomrecorder/MainActivity.kt:423-432 | a blank entry shows "Filename required" and only a blank one does; any other starts exactly one capture, under the manual file name of the entry, which ends in `.mp4` |
| MainFlow.StartWithFilename | app/src/main/java/com/accli/ecomrecorder/MainActivity.kt:459-486 | a successful insert and launch remember the new URI and launch the recorder into it; a null or throwing insert only shows a toast and keeps the remembered URI; a launch that throws after the insert remembers the new URI and only shows the error toast |
| MainFlow.FailedStartStallsLoop | app/src/main/java/com/accli/ecomrecorder/MainActivity.kt:469-485 | only a successful insert and launch start the recorder, into the inserted entry; no outcome of the start relaunches the scanner |
| MainFlow.CaptureResultRelaunches | app/src/main/java/com/accli/ecomrecorder/MainActivity.kt:42-59 | every capture result ends with exactly one scanner launch; only a non-OK result deletes, and only the remembered clip, which is then forgotten |
| MainFlow.CancelDeletesLaunchedClip | app/src/main/java/com/accli/ecomrecorder/MainActivity.kt:42-59 | the clip a cancelled capture deletes is the one its launch recorded into; an OK result keeps it remembered |
| MainFlow.OnPermissions | app/src/main/java/com/accli/ecomrecorder/MainActivity.kt:80-95 | with camera and audio both granted, a missing answer counting as refused, the folders are created and then the scan starts; otherwise only "Permissions required" is shown |
| MainFlow.OnlyCameraAndAudioMatter | app/src/main/java/com/accli/ecomrecorder/MainActivity.kt:80-95 | the storage permissions never change the outcome |
| MainFlow.ColorThresholds | app/src/main/java/com/accli/ecomrecorder/MainActivity.kt:316-320 | green exactly from 60 %, red exactly below 30 %, and the colour never gets more alarming as the charge rises |
| MainFlow.BatteryLabelCharging | app/src/main/java/com/accli/ecomrecorder/MainActivity.kt:324-325 | the label starts with `Battery: <p>%` and ends with ` (Charging)` exactly when charging |
| FolderList.VideoAndImageDisjoint | app/src/main/java/com/accli/ecomrecorder/FolderListActivity.kt:372-380 | no name is both a video and an image |
| FolderList.Filter | app/src/main/java/com/accli/ecomrecorder/FolderListActivity.kt:172-186 | the kept entries are exactly the input's entries that pass the test, none more often than in the input |
| FolderList.Insert | app/src/main/java/com/accli/ecomrecorder/FolderListActivity.kt:177 | insertion adds exactly one copy of the entry |
| FolderList.InsertKeepsSorted | app/src/main/java/com/accli/ecomrecorder/FolderListActivity.kt:177 | inserting into a sorted list under a total order keeps it sorted |
| FolderList.SortBy | app/src/main/java/com/accli/ecomrecorder/FolderListActivity.kt:177-187 | the sort is a permutation of its input |
| FolderList.SortBySorted | app/src/main/java/com/accli/ecomrecorder/FolderListActivity.kt:177-187 | under a total order the sort's result is sorted |
| FolderList.ByNameIsTotalOrder | app/src/main/java/com/accli/ecomrecorder/FolderListActivity.kt:177 | `sortedBy { it.name }` compares by a total order |
| FolderList.NewestFirstIsTotalOrder | app/src/main/java/com/accli/ecomrecorder/FolderListActivity.kt:187 | `sortedByDescending { it.lastModified() }` compares by a total order |
| FolderList.SortKeepsMembers | app/src/main/java/com/accli/ecomrecorder/FolderListActivity.kt:177-187 | sorting neither adds nor drops an entry |
| FolderList.DirectoriesFirst | app/src/main/java/com/accli/ecomrecorder/FolderListActivity.kt:172-188 | directories followed by files keep every directory ahead of every file |
| FolderList.ListingShowsVisible | app/src/main/java/com/accli/ecomrecorder/FolderListActivity.kt:160-188 | the listing holds exactly the visible directories and the visible videos and images, each as often as the directory does, no hidden entry, with every directory ahead of every file |
| FolderList.ListingOrder | app/src/main/java/com/accli/ecomrecorder/FolderListActivity.kt:172-188 | the directories come first in ascending name order, then the files newest first |
| FolderList.SortedHalves | app/src/main/java/com/accli/ecomrecorder/FolderListActivity.kt:172-188 | each half of the listing keeps its own order |
| FolderList.Parent | app/src/main/java/com/accli/ecomrecorder/FolderListActivity.kt:120 | a path has a parent exactly when it has a component, and the parent plus the last component is the path |
| FolderList.BackGoesToRootFromChild | app/src/main/java/com/accli/ecomrecorder/FolderListActivity.kt:117-127 | back shows the root exactly when the current directory is one component below it; otherwise the screen closes |
| FolderList.OpenDispatch | app/src/main/java/com/accli/ecomrecorder/FolderListActivity.kt:202-216 | directories are entered, videos played, images viewed, anything else unsupported; nothing the listing shows is unsupported |
| FolderList.TitleFollowsNavigation | app/src/main/java/com/accli/ecomrecorder/FolderListActivity.kt:168 | the root is titled "Recorded Media", a sub-folder by its name, and back from a sub-folder returns to the root |
| ImageCapture.TakePhoto | app/src/main/java/com/accli/ecomrecorder/SingleImageCaptureActivity.kt:159-162 | without a bound image use case nothing happens; otherwise one picture is taken under the requested name, or the timestamp name, kept when it has a JPEG suffix and otherwise followed by exactly `.jpg` |
| ImageCapture.OnImageSaved | app/src/main/java/com/accli/ecomrecorder/SingleImageCaptureActivity.kt:183-199 | a saved URI is remembered and previewed; without one the screen ends with OK |
| ImageCapture.OnCaptureError | app/src/main/java/com/accli/ecomrecorder/SingleImageCaptureActivity.kt:201-206 | a capture error ends the screen with canceled and never OK |
| ImageCapture.PreviewKeepsOrDeletes | app/src/main/java/com/accli/ecomrecorder/SingleImageCaptureActivity.kt:58-81 | after a save, the photo is stamped exactly on OK and deleted exactly otherwise; OK sets result OK and ends the screen, any other verdict sets no result and keeps the screen open, and a rejected photo is forgotten |
| ImageCapture.PreviewWithoutPhoto | app/src/main/java/com/accli/ecomrecorder/SingleImageCaptureActivity.kt:61-65 | with no saved photo the preview's verdict changes nothing |
| ImageCapture.ExifRotationSpec | app/src/main/java/com/accli/ecomrecorder/SingleImageCaptureActivity.kt:255-273 | the rotation is 90, 180 or 270 exactly for the three rotate tags, in that order, and 0 for every other tag and for read failures |
| ImageCapture.PlanRotation | app/src/main/java/com/accli/ecomrecorder/SingleImageCaptureActivity.kt:248-253 | the bitmap is kept exactly when the rotation is 0, and otherwise turned by the EXIF rotation |
| ImageCapture.ToggleFlashSpec | app/src/main/java/com/accli/ecomrecorder/SingleImageCaptureActivity.kt:275-284 | without a camera nothing happens; a camera without a flash unit only shows "Flash not available"; otherwise the torch flips, the camera is told the new state, and toggling twice restores the screen |

## Left out

- CameraX binding, the preview, the overlay effect, tap-to-focus and the
  `Recorder` internals are foreign library calls. The backend is only the
  stream of events it delivers, and a bound camera is a flag.
- MediaStore calls are effects. Whether an update or delete threw arrives as
  the `storeOk` flag of the `Finalize` event. The media-store `insert` of the
  start screen arrives as an `InsertOutcome`.
- Timestamp stamping, JPEG compression, the rotation matrix and thumbnails
  are bitmap and floating-point work. The model stops at the stamp effect and
  the rotation plan.
- The storage indicator and the battery percentage computation use floats.
  The model keeps only the integer colour thresholds and the label.
- Toast texts, the chronometer, the blinking status, icons and dialog
  rendering are UI only. Toasts that decide nothing (for example "Video
  saved" and "Recording cancelled" on the start screen) are not effects.
- `toggleMute` and the flash toggle of the two video screens are left out.
  The mute preference is only an input of `Begin`/`Mute`. The still-image
  screen's flash toggle is modelled.
- USB and battery broadcast receivers, `onResume` toasts and SharedPreferences
  persistence are OS plumbing.
- Clock-derived file names are opaque input strings.
- `Char.isLetterOrDigit` and `Char.isWhitespace` are Unicode-aware. They are
  parameters (`CharClasses`, `CharTest`), and every property holds for any
  choice of them.
- `endsWith(..., ignoreCase = true)` is modelled by ASCII case folding. The
  suffixes checked (`.mp4`, `.jpg`, `.jpeg`, `.png`) are ASCII, but a
  non-ASCII character that Kotlin folds onto one of their letters is not
  modelled.
- `Text.LexLe` orders strings by character code point. Kotlin's `compareTo`
  compares UTF-16 code units, which differs for characters outside the Basic
  Multilingual Plane.
- FolderList.SortBy: the stability of `sortedBy` among equal keys is not
  proved, only that the result is a sorted permutation.
- The backend accepts every `Begin`: CameraX's refusal of a second active
  recording is not modelled, so finding 1 shows as two live sessions rather
  than as a failed restart.
- Threads are not modelled: every callback runs on the main executor, so
  events are serialised.
- `CaptureActivity.kt` is not part of this model. It is a thin wrapper around
  the barcode library. The scanner's answer enters as the result code and
  code of `MainFlow.ScanResultStartsSafeCapture`.
- `ImagePreviewActivity.kt` is not part of this model. It only answers OK or
  canceled, which enters as the result code of the preview verdict.
- The build file is not part of this model.
- The camera query of the quality dialog (which back camera, which qualities
  it supports) is an input. The dialog's `startCamera()` after a pick is not
  modelled.
- Audio permission while recording only decides `withAudioEnabled()` and is
  not modelled.

Where the code and its written description differ, the model follows the
code:

- The continuous screen does not sanitise a scanned code before using it as
  a file name. Only the start screen's scan result is sanitised.
- Leaving the continuous screen clears the pending name and the queued
  restart only while a recording is referenced. In the window after a scan's
  stop they survive (finding 3).

## Findings

| source | as written | input that shows it | evidently intended | confidence | as-written member | corrected member |
|---|---|---|---|---|---|---|
| app/src/main/java/com/accli/ecomrecorder/ContinuousCaptureActivity.kt:139-153 | the capture button starts a recording whenever the reference is null, which includes the window between a scan's `stop()` and its `Finalize`; that `Finalize` then nulls the new reference and restarts, so the manual recording is orphaned, or the restart's start is rejected if the backend refuses a second active recording | idle screen: capture, scan `A`, capture, then the first session's finalize | at most one live recording, and every live recording is referenced | not executed | ContinuousCapture.ManualStartOrphansRecording | GuardedCapture.StepKeepsInv |
| app/src/main/java/com/accli/ecomrecorder/ContinuousCaptureActivity.kt:485-494 | an error `Finalize` keeps `pendingFilename`, and the restart it triggers later renames an unrelated clip, even one the user chose to discard | idle screen: capture, scan `A`, error finalize, "Stop & Discard", clean finalize | a pending name is used at most once, for the segment its scan cut | not executed | ContinuousCapture.ErrorKeepsStalePendingName | GuardedCapture.RenameOnlyForStoppedSession |
| app/src/main/java/com/accli/ecomrecorder/ContinuousCaptureActivity.kt:548-566 | leaving the app clears the queued restart only when a recording is referenced, so leaving right after a scan still starts a new recording | idle screen: capture, scan `A`, leave the app, clean finalize | leaving the app never leaves a recording running | not executed | ContinuousCapture.LeaveDuringCutStillRestarts | GuardedCapture.LeaveDuringCutCancels |
| app/src/main/java/com/accli/ecomrecorder/MainActivity.kt:429-430 | when the sanitised entry ends in `.mp4` the raw trimmed entry is used, unsanitised | the entry `a b.mp4` | the file name is always the sanitised entry | not executed | Naming.ManualFilenameSkipsSanitizer | Naming.ManualFilenameFixedIsSafe |

`GuardedCapture` is the corrected continuous screen; `MainFlow` uses the
as-written naming rule, since that is what the start screen does, and
`Naming.ManualFilenameFixed` is the corrected rule.
