# Poetria behaviour model

A Dafny model of the client-side behaviour of Poetria, a poetry web app
whose React pages sit on a hosted database. What is modelled:

- **Recording a recitation** (`AudioRecorder`): microphone capture into a
  chunk list, the one-second timer, finalising into a blob with an object
  URL, local playback, delete, download and save. Browser media objects
  become numbered handles. A stopped track is a stream leaving
  `openStreams`; a revoked URL leaves `liveUrls`.
- **Playing audio** (`AudioPlayer`): the playing, loading and muted flags,
  `togglePlay`, `toggleMute`, seeking from the progress bar, and the media
  element's events. Media times are `NaN`, `+Infinity` or a finite real.
- **The daily poem** (`DailyPoetry`): the index chosen on mount and the
  previous/next navigation around the three-poem collection.
- **The writing studio** (`WritingStudio`): save validation, the choice
  between insert and update, publish, New, Edit, Delete, templates, and the
  word and line counters.
- **The library** (`Library`), **recitation studio** (`RecitationStudio`)
  and **audio library** (`AudioLibrary`): liking, case-insensitive search
  filters, payload and display fallbacks, the featured strip, the playing
  marker.
- **Daily tasks** (`DailyTasks`), the admin **external sources** form
  (`ExternalSources`), the **profile** page (`Profile`) and the **bottom
  navigation** (`BottomNavigation`).

Shared modules: `Wrappers` (an `Option` for `null`), `Text` (an ASCII
model of JavaScript's `\s`, `trim`, case conversion, `includes` and string
truthiness), `Seqs` (`filter`, `slice(0, k)` and facts about them) and
`Clock` (the integer `m:ss` clock and its parser).

Anything that leaves the page is a recorded effect in the class's
`effects` log: database writes, toasts, navigation, `onSave`/`onPlay`/
`onPause` callbacks, URL revocation. The outcome of the outside world is a
method parameter: whether the microphone is granted, whether a `play()`
promise resolves, whether a database call succeeds, what `confirm`
answers. Each page's React state is a class whose methods are the
handlers. Each handler's `modifies` names the fields it may change, and
its `ensures` gives the new value of each of them, including the effects. Pure expressions are functions with lemmas about them. A few
client methods (`SessionDuration`, `MuteTwice`, `PressNext`,
`PublishBlankTitle`, `LikeAndUnlike`, `AddRetried`, `EditCancelEditSave`)
run a short sequence of handlers and state the outcome.

Behaviour kept exactly as the source has it, where one might expect
otherwise:

- The duration stored when a recording stops is the value `recordingTime`
  had when start ran (`startRecording` closes over it). It is not the number
  of timer ticks; on a fresh recorder it is 0 (`SessionDuration`).
- If `getUserMedia` succeeds but `new MediaRecorder` throws, the stream stays
  in `streamRef` with its tracks running.
- The player's listener effect re-applies `volume` to the element even while
  muted. Changing `audioUrl` resets none of `isPlaying`, `progress` and
  `currentTime`.
- Publishing with a blank title or content leaves `publishing` set (see
  Findings).
- The library excerpt always ends in "...", even for short poems.
- In the audio library the narrator is never empty, so its truthiness test
  in the search always passes.

## Model

| member | source | states |
|---|---|---|
| AudioRecorder.Sanitize | src/components/AudioRecorder.tsx:139 | same length; each character outside [a-zA-Z0-9] becomes '_', every other is kept |
| AudioRecorder.DownloadName | src/components/AudioRecorder.tsx:139 | ends in ".webm"; the base is the sanitised title, character by character, when the title is present and non-empty, else "recording"; the base holds only letters, digits and '_' |
| AudioRecorder.FormatTime | src/components/AudioRecorder.tsx:161-165 | the timer text parses back to exactly the seconds given and its minutes carry no leading zero, which by `Clock.CanonicalUnique` makes it the one such reading |
| AudioRecorder.Recorder.constructor | src/components/AudioRecorder.tsx:16-26 | not recording or playing, time and duration 0, no blob, URL, recorder or stream |
| AudioRecorder.Recorder.OpenStream | src/components/AudioRecorder.tsx:32-40 | a fresh stream id, added to the open streams and held in `streamRef` |
| AudioRecorder.Recorder.Start | src/components/AudioRecorder.tsx:30-88 | refused microphone: only a "Recording failed" toast; recorder creation fails: failure toast, stream kept open in `streamRef`; success: recording, time 0, empty chunks, a session that captures the old `recordingTime`, "Recording started"; blob, URL and duration never change |
| AudioRecorder.Recorder.Tick | src/components/AudioRecorder.tsx:71-73 | while the timer runs `recordingTime` grows by exactly 1, otherwise unchanged |
| AudioRecorder.Recorder.DataAvailable | src/components/AudioRecorder.tsx:47-51 | a chunk of size > 0 of an unfinished recorder is appended at the end; any other leaves the list unchanged |
| AudioRecorder.Recorder.Finalize | src/components/AudioRecorder.tsx:53-63 | after a stop: the blob is exactly the accumulated chunks with the opus MIME type, a fresh live URL, duration = captured start-time value, the stream's tracks stopped and `streamRef` null; otherwise nothing changes |
| AudioRecorder.Recorder.Stop | src/components/AudioRecorder.tsx:90-105 | no-op unless recording; then not recording, timer cleared, recorder stopping, "Recording stopped"; blob, URL, duration, time untouched |
| AudioRecorder.Recorder.Play | src/components/AudioRecorder.tsx:107-117 | with a URL flips `isPlaying` and pauses or plays the element; without one nothing happens |
| AudioRecorder.Recorder.OnElementEvent | src/components/AudioRecorder.tsx:270-278 | with the element present, `isPlaying` is true exactly after a play event |
| AudioRecorder.Recorder.Delete | src/components/AudioRecorder.tsx:119-133 | blob and URL null, duration and time 0, not playing; the URL is revoked only if there was one, so a second call revokes nothing |
| AudioRecorder.Recorder.Download | src/components/AudioRecorder.tsx:135-149 | only with a blob: one download under `DownloadName(poemTitle)` and a toast; otherwise no effect |
| AudioRecorder.Recorder.Save | src/components/AudioRecorder.tsx:151-159 | `onSave(blob, recordingDuration)` is called iff a blob and `onSave` both exist |
| AudioRecorder.RecordFor | src/components/AudioRecorder.tsx:30-88 | a fresh recorder after start and n ticks: recording, timer at n, no chunk, one open stream captured with time 0 |
| AudioRecorder.SessionDuration | src/components/AudioRecorder.tsx:30-105 | start, n ticks, one chunk, stop, finalize: the timer shows n, the saved duration is 0, the blob is that one chunk, no stream stays open |
| AudioPlayer.Minutes | src/components/AudioPlayer.tsx:179 | the whole minutes m with 60m <= t < 60m + 60 |
| AudioPlayer.SecondsPart | src/components/AudioPlayer.tsx:180 | the floored seconds past the minute are below 60 |
| AudioPlayer.FormatTimeIsWholeSecondClock | src/components/AudioPlayer.tsx:177-182 | "0:00" for NaN or infinity, otherwise the `m:ss` clock of the floored seconds, the same clock the recorder shows |
| AudioPlayer.Player.constructor | src/components/AudioPlayer.tsx:17-27 | not playing, muted or loading; volume 1; progress, time and duration 0 |
| AudioPlayer.Player.Rebind | src/components/AudioPlayer.tsx:29-101 | the element exists exactly while the URL is truthy (an empty string renders none); with it, the element volume becomes `volume` even when muted, without it nothing changes |
| AudioPlayer.Player.SetSource | src/components/AudioPlayer.tsx:29-101 | the new URL is taken, a different source starts at position 0, the volume is re-applied when the new URL is truthy and left alone otherwise; the same URL leaves position and `ended` as they were; playing flags and progress are not reset |
| AudioPlayer.Player.TogglePlay | src/components/AudioPlayer.tsx:103-149 | a missing or empty URL: "No Audio Available" and no state change; playing: paused and `onPause` once; otherwise rewinds an ended element to 0 and clears `ended` whatever the outcome, then resolved: playing, not loading, `onPlay`; rejected: not loading, not playing, "Playback Error"; no promise: still loading |
| AudioPlayer.Player.ToggleMute | src/components/AudioPlayer.tsx:151-162 | without an element (missing or empty URL) nothing changes; otherwise flips `isMuted`, and afterwards the element volume is 0 when muted and `volume` otherwise; `volume` never changes |
| AudioPlayer.Player.Seek | src/components/AudioPlayer.tsx:164-175 | no change without an element (missing or empty URL) or with duration 0, NaN or infinite; otherwise position and time become fraction × duration, progress fraction × 100, and the element has ended exactly when the click is at the very end |
| AudioPlayer.Player.OnLoadStart | src/components/AudioPlayer.tsx:47-50 | loading |
| AudioPlayer.Player.OnCanPlay | src/components/AudioPlayer.tsx:52-55 | not loading |
| AudioPlayer.Player.OnLoadedMetadata | src/components/AudioPlayer.tsx:40-45 | a duration that is neither 0 nor NaN is adopted, any other ignored |
| AudioPlayer.Player.OnTimeUpdate | src/components/AudioPlayer.tsx:33-38 | the element's reported position is taken; with a duration that is neither 0 nor NaN the shown time becomes that position and progress position / duration × 100 (0 for an infinite duration); otherwise time and progress are unchanged |
| AudioPlayer.Player.OnEnded | src/components/AudioPlayer.tsx:57-63 | not playing, progress and time 0, `onPause` called once if given |
| AudioPlayer.Player.OnError | src/components/AudioPlayer.tsx:65-74 | not loading, not playing, "Audio Error" toast |
| AudioPlayer.Player.TimeLine | src/components/AudioPlayer.tsx:209 | current time and duration as whole-second clocks separated by " / " |
| AudioPlayer.MuteTwice | src/components/AudioPlayer.tsx:151-162 | element volume 1, then 0, then 1 again after two toggles |
| AudioPlayer.PlayEmptyUrl | src/components/AudioPlayer.tsx:103-112 | with an empty `audio_url` pressing play shows only "No Audio Available" and muting changes nothing |
| AudioPlayer.ResumeAfterSeek | src/components/AudioPlayer.tsx:118-175 | a ten-second track played to its end, clicked at the middle and played again resumes at five seconds |
| DailyPoetry.Next | src/pages/DailyPoetry.tsx:132 | stays below n; i + 1, wrapping from n - 1 to 0 |
| DailyPoetry.Prev | src/pages/DailyPoetry.tsx:129 | stays below n; i - 1, wrapping from 0 to n - 1 |
| DailyPoetry.NextTimesIsShift | src/pages/DailyPoetry.tsx:132 | k next steps from i land on (i + k) mod n |
| DailyPoetry.FullCycle | src/pages/DailyPoetry.tsx:132 | n next steps return to the start |
| DailyPoetry.MountIndex | src/pages/DailyPoetry.tsx:143-146 | in range and congruent to the day of the year modulo 3 |
| DailyPoetry.DailyPage.DailyPoem | src/pages/DailyPoetry.tsx:104 | the shown poem is a member of the collection |
| DailyPoetry.DailyPage.constructor | src/pages/DailyPoetry.tsx:13-14 | today's date, index 0 |
| DailyPoetry.DailyPage.Mount | src/pages/DailyPoetry.tsx:143-146 | index becomes `MountIndex(dayOfYear)` |
| DailyPoetry.DailyPage.Navigate | src/pages/DailyPoetry.tsx:125-134 | previous: date - 1 and `Prev`; next: date + 1 and `Next` |
| DailyPoetry.PressNext | src/pages/DailyPoetry.tsx:125-146 | k presses of next after mount: date + k, index (start + k) mod 3, the same poem after 3 |
| WritingStudio.SplitLength | src/pages/WritingStudio.tsx:467 | splitting gives one more piece than there are separators |
| WritingStudio.RunStartsCountsPieces | src/pages/WritingStudio.tsx:461 | the non-empty pieces of a split at white space are the starts of runs of non-space characters |
| WritingStudio.WordCountIsRunCount | src/pages/WritingStudio.tsx:461 | the word count equals the number of maximal runs of non-space characters |
| WritingStudio.LineCountBound | src/pages/WritingStudio.tsx:467 | at most (number of newlines) + 1, and every counted line trims to something non-empty |
| WritingStudio.DecideMeaning | src/pages/WritingStudio.tsx:72-131 | sign-in iff no user; refused iff title or content is blank; otherwise trimmed, non-blank title and content, update of the edited id iff one is set, else insert for the user with `is_audio` false; draft or not plays no part |
| WritingStudio.Studio.constructor | src/pages/WritingStudio.tsx:20-27 | empty title and content, "free_verse", no id, no flags |
| WritingStudio.Studio.HandleSave | src/pages/WritingStudio.tsx:72-147 | effects are `SaveEffects` of the decision: no user, a toast and /login; blank, a toast; otherwise exactly the write of `Decide` and the toast for its outcome. A write leaves both `saving` and `publishing` false; the early returns leave both flags as they were |
| WritingStudio.Studio.HandlePublish | src/pages/WritingStudio.tsx:149-152 | exactly the effects of a non-draft save (sign-in toast and /login, the missing-content toast, or the write and its outcome toast); a write clears both flags, a refused save leaves `publishing` set |
| WritingStudio.Studio.HandlePublishClearingFlags | src/pages/WritingStudio.tsx:143-152 | both flags cleared on every path, same write and toast as a non-draft save |
| WritingStudio.Studio.HandleNew | src/pages/WritingStudio.tsx:154-168 | blank editor, or confirmed: "", "", "free_verse", no id; otherwise nothing changes |
| WritingStudio.Studio.HandleEdit | src/pages/WritingStudio.tsx:170-175 | the poem's title, content and id; category, or "free_verse" when missing or empty |
| WritingStudio.Studio.HandleDelete | src/pages/WritingStudio.tsx:177-206 | not confirmed: nothing; otherwise one delete and its toast; the editor is cleared (through New) only when the deleted poem is the one being edited and the editor is blank or the clear is confirmed; in every other case title, content, category and id are untouched |
| WritingStudio.Studio.HandleTemplateSelect | src/pages/WritingStudio.tsx:208-214 | only the category changes, to the template's |
| WritingStudio.PublishBlankTitle | src/pages/WritingStudio.tsx:83-152 | publishing a poem with a blank title leaves the save buttons disabled as written, enabled with the flags cleared |
| Library.ToggleMeaning | src/pages/Library.tsx:101-105 | an id not liked is appended at the end; a liked id is removed everywhere, the rest kept in order |
| Library.LikeThenUnlike | src/pages/Library.tsx:101-105 | liking then unliking an id not liked gives back the same list |
| Library.ToggleKeepsDistinct | src/pages/Library.tsx:101-105 | a duplicate-free list stays duplicate-free |
| Library.ToggleTwiceRestoresMembership | src/pages/Library.tsx:101-105 | two toggles of one id restore which ids are liked |
| Library.LibraryPage.constructor | src/pages/Library.tsx:19 | nothing liked |
| Library.LibraryPage.ToggleLike | src/pages/Library.tsx:91-111 | no user: list unchanged and "Sign in required"; otherwise the toggle, with "Removed" or "Added" judged on the list before |
| Library.LikeAndUnlike | src/pages/Library.tsx:91-111 | like then unlike: same list, toasts "Added" then "Removed" |
| Library.PoemNoun | src/pages/Library.tsx:193 | "poem" iff the count is 1, "poems" iff it is not |
| Library.Excerpt | src/pages/Library.tsx:230 | the first min(150, length) characters followed by "..." |
| Library.EmptyHint | src/pages/Library.tsx:344-346 | "Try adjusting…" iff a search term or category is set, else "Be the first…"; the source filter is not an input |
| RecitationStudio.FilteredPoemsMeaning | src/pages/RecitationStudio.tsx:112-115 | an order-preserving sub-list holding exactly the poems whose title, or whose non-empty author, contains the term ignoring case |
| RecitationStudio.EmptySearchKeepsAll | src/pages/RecitationStudio.tsx:112-115 | an empty search keeps every poem in order |
| RecitationStudio.Upsert | src/pages/RecitationStudio.tsx:79-89 | the poem's id and user; title, content, category or "Recorded Poem", "", "recitation"; never public |
| RecitationStudio.RecitationPage.constructor | src/pages/RecitationStudio.tsx:18-20 | empty search, nothing selected, "poems" tab |
| RecitationStudio.RecitationPage.Select | src/pages/RecitationStudio.tsx:237 | the poem is selected |
| RecitationStudio.RecitationPage.Back | src/pages/RecitationStudio.tsx:158 | nothing selected |
| RecitationStudio.RecitationPage.HandleSaveRecording | src/pages/RecitationStudio.tsx:72-125 | nothing selected: no effect; no user: failure toast, no write; otherwise the upsert, then on success deselected and "recordings" tab, on failure only a toast |
| RecitationStudio.FormatDuration | src/pages/RecitationStudio.tsx:127-131 | "Unknown" iff missing or 0, otherwise an `m:ss` reading that parses back to the duration and whose minutes carry no leading zero |
| AudioLibrary.ToAudioPoem | src/pages/AudioLibrary.tsx:50-61 | author: external author, else user's name, else "Unknown Author"; narrator: user's name or "You" for source "user", else "AI Narrator"; category or "general"; none of the three empty |
| AudioLibrary.AudioPoems | src/pages/AudioLibrary.tsx:50-61 | one card per row, in order |
| AudioLibrary.FilteredAudioMeaning | src/pages/AudioLibrary.tsx:63-67 | an order-preserving sub-list holding exactly the cards whose title, author or narrator contains the term ignoring case |
| AudioLibrary.EmptySearchKeepsAll | src/pages/AudioLibrary.tsx:63-67 | an empty search keeps every card in order |
| AudioLibrary.Featured | src/pages/AudioLibrary.tsx:126 | the first min(3, n) filtered cards, each a matching card of the page |
| AudioLibrary.AudioLibraryPage.constructor | src/pages/AudioLibrary.tsx:18-19 | empty search, nothing playing |
| AudioLibrary.AudioLibraryPage.HandlePlay | src/pages/AudioLibrary.tsx:69-72 | the id is the one playing |
| AudioLibrary.AudioLibraryPage.HandlePause | src/pages/AudioLibrary.tsx:74-77 | nothing playing |
| DailyTasks.IsTaskCompleted | src/components/DailyTasks.tsx:106-108 | true iff some row has that task type and is completed |
| DailyTasks.CompletedCount | src/components/DailyTasks.tsx:110 | at most 3, whatever the rows |
| DailyTasks.CompletedCountIsSum | src/components/DailyTasks.tsx:106-110 | one for each of the three fixed tasks that is completed |
| DailyTasks.AllDoneIffEveryTask | src/components/DailyTasks.tsx:210 | the banner shows iff each of the three tasks is completed |
| DailyTasks.MoreRowsCountMore | src/components/DailyTasks.tsx:106-110 | an extra row never lowers the count |
| DailyTasks.CompletingAddsOne | src/components/DailyTasks.tsx:106-110 | a completed row for a task not yet done raises the count by exactly 1 |
| DailyTasks.OnClick | src/components/DailyTasks.tsx:69-77 | nothing iff the task is already completed; otherwise the upsert for the user, today and the task, with completed true |
| DailyTasks.ClickCompletes | src/components/DailyTasks.tsx:69-108 | once the upsert is among the rows, the task shows as completed |
| ExternalSources.InsertPayload | src/components/admin/ExternalSourcesManager.tsx:50-55 | name and url as typed, an empty endpoint as null, any other kept, active |
| ExternalSources.PayloadRoundTrip | src/components/admin/ExternalSourcesManager.tsx:50-55 | the form is recovered from its payload |
| ExternalSources.ToggleRequest | src/components/admin/ExternalSourcesManager.tsx:121-123 | that id, with the status negated |
| ExternalSources.SourcesManager.constructor | src/components/admin/ExternalSourcesManager.tsx:18-23 | three empty fields, dialog closed |
| ExternalSources.SourcesManager.SetDialogOpen | src/components/admin/ExternalSourcesManager.tsx:137 | the dialog follows its open state |
| ExternalSources.SourcesManager.Edit | src/components/admin/ExternalSourcesManager.tsx:155-173 | the form holds what was typed |
| ExternalSources.SourcesManager.HandleAddSource | src/components/admin/ExternalSourcesManager.tsx:46-119 | empty name or url: "Missing fields" and nothing else; otherwise the insert; success empties the form and closes the dialog; failure keeps both |
| ExternalSources.SourcesManager.HandleToggleSource | src/components/admin/ExternalSourcesManager.tsx:82-123 | one update, for that id only, with the status negated, and its toast |
| ExternalSources.AddRetried | src/components/admin/ExternalSourcesManager.tsx:46-119 | a failed then a successful add send the same payload; only the second empties the form and closes the dialog |
| Profile.FormOf | src/pages/Profile.tsx:87-95 | each form field is the profile's value, or "" when null |
| Profile.SaveThenSync | src/pages/Profile.tsx:52-95 | a saved form comes back unchanged when the stored profile syncs |
| Profile.ProfilePage.constructor | src/pages/Profile.tsx:22-27 | not editing, empty form |
| Profile.ProfilePage.Sync | src/pages/Profile.tsx:87-95 | a loaded profile fills the form; no profile leaves it |
| Profile.ProfilePage.StartEditing | src/pages/Profile.tsx:199 | editing |
| Profile.ProfilePage.Edit | src/pages/Profile.tsx:159-169 | the form holds what was typed |
| Profile.ProfilePage.HandleCancel | src/pages/Profile.tsx:101-110 | not editing; the form restored from the profile when there is one, unchanged otherwise |
| Profile.ProfilePage.HandleSave | src/pages/Profile.tsx:52-99 | no user: failure toast, no write; otherwise the upsert of the form; success leaves editing, failure stays |
| Profile.EditCancelEditSave | src/pages/Profile.tsx:52-110 | cancel discards the typed change; a later save writes the new form and leaves editing |
| Profile.BeforeAt | src/pages/Profile.tsx:176 | the prefix of the email before its first '@', or all of it |
| Profile.Heading | src/pages/Profile.tsx:176 | display name, else the email's part before '@', else "Poetry Lover"; never empty |
| Profile.Initial | src/pages/Profile.tsx:149 | the upper-cased first character of the display name, else of the email, else nothing; never a lower-case letter |
| Profile.Stat | src/pages/Profile.tsx:216 | the value, or 0 when null |
| BottomNavigation.NavItems | src/components/BottomNavigation.tsx:11-41 | five items: Library, Write, Daily, Recite, then Profile → /profile when signed in or Sign In → /login |
| BottomNavigation.PathsDistinct | src/components/BottomNavigation.tsx:11-41 | no two items share a path |
| BottomNavigation.AtMostOneActive | src/components/BottomNavigation.tsx:11-47 | whatever the pathname, at most one item is active |
| BottomNavigation.SomeActiveIffListed | src/components/BottomNavigation.tsx:47 | an item is active iff the pathname is exactly one of the paths |
| Text.TrimEmptyIffBlank | src/pages/WritingStudio.tsx:83 | `trim()` is empty iff the string is all white space |
| Text.TrimIsInnerPiece | src/pages/WritingStudio.tsx:100-101 | `trim()` is a piece of the string that neither starts nor ends with white space |
| Text.TrimStartShape | src/pages/WritingStudio.tsx:83 | leading trimming keeps a suffix that does not start with white space, and everything it removes is white space |
| Text.TrimEndShape | src/pages/WritingStudio.tsx:83 | trailing trimming keeps a prefix that does not end with white space, and everything it removes is white space |
| Text.Lower | src/pages/RecitationStudio.tsx:113 | same length, each letter lowered |
| Text.EmptyIsContainedIgnoringCase | src/pages/RecitationStudio.tsx:113 | every string includes the empty search |
| Text.OrElse | src/pages/WritingStudio.tsx:173 | `a \|\| b`: `a` when present and non-empty, else `b` |
| Seqs.Filter | src/pages/Library.tsx:103 | no longer than the input; holds exactly the input's elements that pass |
| Seqs.FilterIsSubsequence | src/pages/RecitationStudio.tsx:112-115 | a filter result is an order-preserving sub-list |
| Seqs.FilterKeepsAll | src/pages/AudioLibrary.tsx:63-67 | a test passing everything keeps the whole list |
| Seqs.FilterKeepsDistinct | src/pages/Library.tsx:103 | filtering keeps a list duplicate-free |
| Seqs.FilterFullIffAll | src/components/DailyTasks.tsx:110 | nothing is dropped iff every element passes |
| Seqs.FilterMonotone | src/components/DailyTasks.tsx:110 | a weaker test keeps at least as many |
| Seqs.Take | src/pages/AudioLibrary.tsx:126 | the first min(k, n) elements |
| Clock.Decimal | src/components/AudioRecorder.tsx:164 | only decimal digits, a single one iff the number is below 10, and no leading zero |
| Clock.DecimalOfValue | src/components/AudioRecorder.tsx:164 | a numeral without leading zero is the rendering of the number it denotes |
| Clock.PadTwoOfValue | src/components/AudioRecorder.tsx:164 | any two digits are the padded rendering of their number |
| Clock.DecimalRoundTrip | src/components/AudioRecorder.tsx:164 | the digits read back as the number |
| Clock.PadTwo | src/components/AudioRecorder.tsx:164 | exactly two digits |
| Clock.PadTwoRoundTrip | src/components/AudioRecorder.tsx:164 | the two digits read back as the number |
| Clock.FormatRoundTrip | src/components/AudioRecorder.tsx:161-165 | `m:ss` parses back to the seconds, and its minutes carry no leading zero |
| Clock.CanonicalUnique | src/components/AudioRecorder.tsx:161-165 | a reading that parses to some seconds and has no leading zero in its minutes is the clock reading of those seconds, so `Format` is injective onto the canonical readings |
| Clock.FormatShape | src/components/AudioRecorder.tsx:164 | ends in a colon and two digits |

## Left out

- Database queries, inserts, upserts, deletes, the `update_user_streak` call and the server-side `ilike` search of the library: writes are recorded effects, and their success is a parameter. Error messages from the database are not modelled; the failure toasts carry the fixed fallback text.
- Browser media APIs (`getUserMedia`, `MediaRecorder`, object URLs, the `<audio>` element), `navigator.share` and the clipboard: these are abstract handles or parameters. Sharing a library poem is not modelled at all.
- Timers and asynchrony: the interval is an explicit `Tick`, and events and promise outcomes are explicit calls or parameters. Two overlapping handlers are not modelled.
- AudioPlayer.Player.Seek: the click position is given as the fraction of the bar's width. Floating-point rounding in `newTime` and `progress` is real arithmetic here.
- AudioPlayer.Player.OnTimeUpdate: the percentage is real arithmetic, not IEEE double rounding.
- AudioPlayer.Minutes: `Math.floor(time / 60)` divides in doubles, which can round a time just below a whole minute up to that minute while `time % 60` stays exact, so the source can show "k:59" where the exact-real model shows "(k-1):59"; the model uses exact reals.
- AudioPlayer.FormatTimeIsWholeSecondClock: holds for exact reals; the double-rounding case of `AudioPlayer.Minutes` is not captured.
- AudioRecorder.Recorder.Start: requires that no stopped recorder is still waiting for its `onstop`; pressing Start between `stop()` and `onstop` is not modelled.
- AudioRecorder.Recorder.Delete: requires the same, so deleting between `stop()` and `onstop` (where the late `onstop` would bring the recording back) is not modelled.
- AudioPlayer.Player.TogglePlay: the play button being disabled while loading is not a precondition; the disabled states are not modelled.
- Dates: `dayOfYear` is a number given to `Mount`, the date is a day number, and the "New daily poem loaded" toast with its formatted date is not logged.
- Unicode: white space, `trim` and case conversion are ASCII only.
- AudioRecorder.Sanitize: strings are sequences of characters, not UTF-16 code units; the source's `/[^a-z0-9]/gi` (no `u` flag) replaces each code unit, so a character outside the Basic Multilingual Plane becomes two '_' there and one here.
- AudioRecorder.DownloadName: inherits the character-versus-code-unit difference of `Sanitize` ("🌙 Moon" gives `___Moon.webm` in the source, `__Moon.webm` here).
- Library.Excerpt: cuts at 150 characters, while `substring(0, 150)` counts UTF-16 code units and can split a surrogate pair.
- Profile.Initial: takes the whole first character, while `charAt(0)` yields a lone surrogate for a character outside the Basic Multilingual Plane.
- The random like and download counts of audio cards.
- Static data and rendering: the daily poems' full texts, themes and counts, the weekly list, fonts, icons and styling.
- A null poem title in the recitation or audio search would throw in the page; titles are modelled as strings.
- Library.ToggleTwiceRestoresMembership: membership only; the order after unliking then re-liking is the rest followed by the id (see `Library.ToggleMeaning`).
- Library.LibraryPage.ToggleLike: the toast reads the list of the render, which equals the list before the toggle only when no other toggle is pending.
- WritingStudio.Studio.HandleSave: the error toast's description is the database's message when there is one; the model always uses the fallback text.
- WritingStudio.Studio.HandleDelete: New's confirm dialog after a delete is the `confirmClear` parameter.

## Findings

| source | as written | input that shows it | evidently intended | confidence | as-written member | corrected member |
|---|---|---|---|---|---|---|
| src/pages/WritingStudio.tsx:149-152 | `handlePublish` sets `publishing` and then calls `handleSave(false)`. The missing-content return (and the sign-in return, which leaves the page) comes before the `try … finally` that clears the flag. The Save and Publish buttons are disabled while `saving \|\| publishing` (lines 238, 246, 316, 325). | A signed-in user presses Publish with an empty title. (On the sign-in branch the page navigates to /login, so the stuck flag is only visible after the missing-content return.) | Publishing ends with both flags cleared on every path, as the `finally` block does for writes, so the buttons are enabled again. | not executed | WritingStudio.Studio.HandlePublish, WritingStudio.PublishBlankTitle | WritingStudio.Studio.HandlePublishClearingFlags |
