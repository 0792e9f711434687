# Free text-to-speech: a verified model of the page's core

The application is a single React page (`app/page.tsx`) that lists the
browser's speech-synthesis voices by language and speaks the text typed
into it. It has a mute button and a volume slider. It can "download" the
speech by recording it through the microphone into a WAV file. A small hook
(`components/ui/use-toast.ts`) shows notifications.

This project models five parts of that core in Dafny and proves properties
about them:

- **Voice catalog** (`voice_catalog.dfy`, module `VoiceCatalog`).
  - `loadVoices` groups voices by their primary language subtag
    (`lang.split("-")[0]`).
  - It sorts the groups by display name and picks a default voice and
    language.
  - The language-change effect keeps the selected voice inside the selected
    language.
  - The grouping loop is the imperative method `GroupVoices`. It fills a
    dictionary in place and is proved equal to the reference definition
    `Grouped`. Lemmas show that `Grouped` partitions the voices.
  - The page's catalog state is the class `Catalog`.
- **Volume** (`volume.dfy`, module `Volume`).
  - `toggleMute`, the volume slider's handler, and the volume that
    `handlePlay` gives a new utterance.
  - Each is a function on `VolumeState`, and the class `VolumeControl`
    implements it.
  - Lemmas state the invariant all three keep, and what two toggles in a
    row give.
- **Recording/download** (`recording.dfy`, module `Recording`).
  - `handleDownload`, `startRecording` and the callbacks they install
    (`then`/`catch` of `getUserMedia`, `ondataavailable`, the deadline
    timer, `onstop`).
  - These are handlers of an event machine over the page's flags and its
    chunk buffer. The environment (the browser's media stack) decides which
    enabled event comes next. That includes the recorder stopping by itself
    (its tracks ended, or it failed) before the deadline.
  - Lemmas prove five things:
    - a single-session invariant holds on every run from the initial
      state in which each `.then` callback runs to completion;
    - a second click during a session is impossible;
    - only the listed events end a generation;
    - a session of the shape click, grant, chunks, stop, chunks, `onstop`
      (the trace `Session`) downloads exactly one blob. The blob holds the
      chunks delivered while recording and those flushed after the stop,
      in delivery order. Other valid interleavings are not covered by
      this lemma.
    - a recorder that stops by itself leaves its deadline timer pending.
      That stale timer is reachable, and if it fires during the next
      session it stops the new recording early.
  - The class `Coordinator` implements the handlers on mutable fields.
- **Toasts** (`toasts.dfy`, module `Toasts`).
  - `genId`, with its counter modulo `Number.MAX_SAFE_INTEGER` and its
    decimal id, plus `toast` and `dismiss`.
  - Lemmas prove three things:
    - ids are injective until the counter wraps;
    - `dismiss` is idempotent;
    - a toast's own auto-dismiss empties the list, while a stale one
      leaves the newer toast alone.
  - The class `ToastStore` holds the counter and the list.
- `wrappers.dfy` holds the `Option` type, which stands for `undefined` and
  for optional props.

Host services are parameters:
- `Intl.DisplayNames(...).of(code)` is `lookup: string -> Option<string>`,
  and `accepts: string -> bool` says whether that call returns at all (it
  throws a RangeError for a malformed subtag such as `""`). A subtag that
  names a member of `Object.prototype` also aborts the grouping loop (see
  `Inherited`);
- `a.localeCompare(b) <= 0` is `leq`, assumed only to be a total preorder;
- the outcome of the synchronous part of `startRecording` is an argument
  of the download click.

React state updates are treated as applied at once, in program order.
Within one handler the source's later `setState` calls win anyway.

The code filters the voice list with `voice.lang.startsWith(selectedLanguage)` (lines 160
and 432). That filter is wider than the group: `FilterWiderThanGroup`
proves that a Filipino voice (`fil-PH`) passes the Finnish filter (`fi`)
and stays selected. `GroupWithinFilter` proves the other direction: every
member of the group passes the filter.

## Model

| member | source | states |
|---|---|---|
| VoiceCatalog.PrimaryTag | app/page.tsx:69 | the subtag is a prefix of the tag, contains no hyphen, and is followed by a hyphen when it is shorter than the tag |
| VoiceCatalog.Codes | app/page.tsx:66-81 | the codes of the grouping are pairwise distinct (one dictionary key per subtag) |
| VoiceCatalog.CodesMembership | app/page.tsx:68-78 | a code is a key exactly when some voice has it as its primary subtag |
| VoiceCatalog.VoicesWithTag | app/page.tsx:72-80 | a group holds exactly the voices with its subtag, and no more voices than the input |
| VoiceCatalog.DisplayName | app/page.tsx:70 | the name is the looked-up name or the code itself, and it is empty only for an empty code |
| VoiceCatalog.GroupsFor | app/page.tsx:72-78 | one group per code |
| VoiceCatalog.Grouped | app/page.tsx:66-83 | one group per code, no two groups share a code, and each group is named by the display name of its code |
| VoiceCatalog.GroupsNonEmpty | app/page.tsx:72-80 | no group is empty, since a group is only made for a voice that then joins it |
| VoiceCatalog.GroupVoices | app/page.tsx:66-83 | the in-place dictionary loop aborts exactly when the display-name lookup rejects some voice's subtag or that subtag is an `Object.prototype` key (the `push` then throws); otherwise, read back in key-insertion order, it yields exactly the reference grouping `Grouped` |
| VoiceCatalog.ValuesAreGrouped | app/page.tsx:83 | `Object.values` of the finished dictionary, in key order, equals `Grouped` |
| VoiceCatalog.GroupsSoFarStep | app/page.tsx:68-81 | one iteration of `forEach` keeps the loop invariant: keys are the codes seen so far, and each entry holds that code's voices in order |
| VoiceCatalog.GroupingStep | app/page.tsx:72-80 | one more voice appends its code if it is new, and joins only its own group, at the end |
| VoiceCatalog.VoicesWithTagAbsent | app/page.tsx:72-78 | a code that no voice has gets no voices |
| VoiceCatalog.FlattenGroupsFor | app/page.tsx:66-81 | the groups' voices, concatenated, are the per-code selections concatenated |
| VoiceCatalog.CollectSnoc | app/page.tsx:68-80 | one more voice adds itself once, exactly when its code is listed |
| VoiceCatalog.CollectAppendCode | app/page.tsx:72-78 | a new code appends its group's voices at the end |
| VoiceCatalog.CollectCodesIsPermutation | app/page.tsx:66-81 | the groups' voices, taken together, are the input voices with multiplicities |
| VoiceCatalog.GroupedIsPartition | app/page.tsx:66-81 | grouping is a partition: members carry their group's code and come from the input, codes are distinct, every voice has its group, and the flattened groups are a permutation of the input |
| VoiceCatalog.EveryVoiceGrouped | app/page.tsx:68-80 | every voice lies in the group of its primary subtag |
| VoiceCatalog.GroupedIsPermutation | app/page.tsx:66-81 | no voice is lost or duplicated by the grouping |
| VoiceCatalog.VoicesWithTagAppend | app/page.tsx:80 | `push` in `forEach` order: a group lists its voices in input order |
| VoiceCatalog.Insert | app/page.tsx:83 | insertion adds exactly the one group |
| VoiceCatalog.SortGroups | app/page.tsx:83 | sorting is a permutation of the groups |
| VoiceCatalog.InsertSorted | app/page.tsx:83 | inserting into a name-sorted list keeps it sorted |
| VoiceCatalog.InsertBelow | app/page.tsx:83 | a name at or before every name of the list and of the new group stays at or before every name after insertion |
| VoiceCatalog.SortGroupsSorted | app/page.tsx:83 | the sorted groups are ordered by display name under any total preorder |
| VoiceCatalog.InsertDistinct | app/page.tsx:83 | inserting a group of a new code keeps the codes distinct |
| VoiceCatalog.SortGroupsDistinct | app/page.tsx:83 | sorting keeps the codes distinct |
| VoiceCatalog.LanguageGroupsSorted | app/page.tsx:83 | what `setLanguageGroups` receives is sorted by name, has distinct codes, and is a rearrangement of the grouping |
| VoiceCatalog.FirstDefault | app/page.tsx:87 | the index found is the first voice with `default` set; none found means no voice has it |
| VoiceCatalog.DefaultVoice | app/page.tsx:87 | the default voice is an available voice: the first flagged one if any, otherwise the first voice |
| VoiceCatalog.StartsWith | app/page.tsx:160 | `startsWith` holds exactly when the prefix is no longer than the tag and equals its first characters |
| VoiceCatalog.HasVoiceNamed | app/page.tsx:161 | `some` holds exactly when the name is among the voices' names |
| VoiceCatalog.LanguageVoices | app/page.tsx:160 | the filter keeps exactly the voices whose tag starts with the selected code |
| VoiceCatalog.FirstWithPrefix | app/page.tsx:160-162 | the index found is the first voice passing the filter; none found means no voice passes it |
| VoiceCatalog.LanguageVoicesHead | app/page.tsx:161-162 | the filtered list is empty exactly when no voice matches, and otherwise starts with the first match |
| VoiceCatalog.LanguageEffect | app/page.tsx:158-165 | with a language and voices: if the selected voice is not among the matching voices, it snaps to the first match; otherwise it is kept; afterwards it passes the filter whenever any voice does |
| VoiceCatalog.LanguageEffectIdempotent | app/page.tsx:158-165 | re-running the effect on its own result changes nothing, so the effect does not retrigger itself forever |
| VoiceCatalog.GroupWithinFilter | app/page.tsx:160 | every member of the group for a code passes that code's `startsWith` filter |
| VoiceCatalog.FilterWiderThanGroup | app/page.tsx:160 | the filter for "fi" admits a "fil-PH" voice that is not in the "fi" group, and the effect keeps it selected |
| VoiceCatalog.DefaultSelectionStable | app/page.tsx:86-92 | the default voice passes the filter of its own primary subtag, so the effect leaves the fresh selection unchanged |
| VoiceCatalog.Catalog.constructor | app/page.tsx:32-35 | empty voices and groups, no voice and no language selected |
| VoiceCatalog.Catalog.LoadVoices | app/page.tsx:61-92 | voices are the host's list; if the `forEach` throws for some voice (lookup rejects the subtag, or it is an inherited key), the groups and the language stay as they were and only the language effect runs; otherwise the groups are the sorted grouping, a non-empty list selects the default voice and its subtag, and an empty list keeps the selection; the selection stays consistent |
| VoiceCatalog.Catalog.SelectLanguage | app/page.tsx:405 | the language becomes the chosen code, and the voice is what the language effect makes of the old one |
| VoiceCatalog.Catalog.SelectVoice | app/page.tsx:426 | the voice is what the language effect makes of the chosen name |
| Volume.EffectiveVolume | app/page.tsx:184 | a muted page gives 0, otherwise the slider volume |
| Volume.Toggled | app/page.tsx:294-309 | unmuting restores the saved volume; muting saves the current volume and silences; a live utterance follows |
| Volume.SliderMoved | app/page.tsx:515-521 | the value becomes the volume, mute is set exactly when the value is 0, the saved volume stays, a live utterance follows |
| Volume.UtteranceBuilt | app/page.tsx:173-184 | the new utterance plays at the effective volume, and nothing else changes |
| Volume.TransitionsKeepConsistent | app/page.tsx:294-309 | toggling, moving the slider within [0, 1] and building an utterance keep the volume ranges, "muted means silent", and the live utterance at the shown volume |
| Volume.EffectiveVolumeIsVolume | app/page.tsx:184 | on a consistent page the `isMuted ? 0 : volume` choice equals the volume |
| Volume.ToggleTwiceFromUnmuted | app/page.tsx:294-309 | mute then unmute restores the volume and the unmuted flag |
| Volume.ToggleTwiceFromMuted | app/page.tsx:294-309 | unmute then mute, from a consistent muted page, restores the volume, the flag and the saved volume |
| Volume.UnmuteAfterSliderZero | app/page.tsx:515-521 | dragging to 0 mutes without saving, so the next toggle unmutes to the volume saved at the last mute press |
| Volume.VolumeControl.constructor | app/page.tsx:38-42 | volume 1, saved volume 1, not muted, no utterance |
| Volume.VolumeControl.ToggleMute | app/page.tsx:294-309 | the fields change as `Toggled` says, and consistency is kept |
| Volume.VolumeControl.SlideVolume | app/page.tsx:508-521 | the fields change as `SliderMoved` says for a slider value in [0, 1], and consistency is kept |
| Volume.VolumeControl.BuildUtterance | app/page.tsx:173-184 | the utterance volume becomes the effective volume, and consistency is kept |
| Recording.Blob | app/page.tsx:225 | no chunks give no bytes, and one chunk gives its own bytes |
| Recording.BlobAppend | app/page.tsx:225 | the blob of a concatenated chunk list is the concatenation of the blobs |
| Recording.Download | app/page.tsx:275-292 | empty text does nothing; otherwise generation starts, the buffer is reset, and the microphone is requested; a synchronous throw ends generation with an error notice; a throw from `new AudioContext` comes before the reset |
| Recording.Granted | app/page.tsx:214-262 | the recorder records, the alert shows, a deadline timer is pending, and nothing else changes |
| Recording.Denied | app/page.tsx:264-272 | generation ends with a microphone error notice; recorder, buffer and alert are untouched |
| Recording.DataArrived | app/page.tsx:219-221 | the chunk is appended to the buffer, and nothing else changes |
| Recording.Fired | app/page.tsx:258-262 | `stop()` only while recording; otherwise only the timer is consumed |
| Recording.Ended | app/page.tsx:223-246 | a recorder that stops by itself goes inactive with its `onstop` pending, and its deadline timer stays pending |
| Recording.Stopped | app/page.tsx:223-246 | the buffer is downloaded as one blob, generation ends, the alert hides, and a completion notice is shown |
| Recording.DownloadEnabled | app/page.tsx:487 | the download button is enabled only with text, never while generating or playing |
| Recording.Enabled | app/page.tsx:203-292 | an enabled click comes only with text and no generation running; data and a self-stop come only from a recording or flushing recorder |
| Recording.Step | app/page.tsx:203-292 | the event dispatch: only `onstop` downloads, only data events and a click touch the buffer, and only `onstop`, a denial or a click raise a notice |
| Recording.StepKeepsInv | app/page.tsx:203-292 | every enabled event keeps the single-session invariant |
| Recording.RunKeepsInv | app/page.tsx:203-292 | every enabled trace keeps the invariant |
| Recording.ReachableKeepsInv | app/page.tsx:43-53 | from the page's initial state every enabled trace, including self-stopped recorders and stale timers, stays in the invariant |
| Recording.NoSecondSession | app/page.tsx:487 | while a request, a recording or an `onstop` is outstanding, the disabled button admits no second click |
| Recording.DenialLeavesNothing | app/page.tsx:264-272 | after a denial no timer is added, no request, recorder or `onstop` of the session remains, the alert is hidden, and nothing was downloaded |
| Recording.GenerationEnds | app/page.tsx:239-285 | only `onstop`, a denial or a synchronous throw ends a running generation |
| Recording.StopOnlyWhileRecording | app/page.tsx:258-262 | an event adds at most one pending `onstop`, and only by stopping a recording recorder: the deadline's guarded `stop()` or the recorder's own end |
| Recording.DataRun | app/page.tsx:219-221 | while recording or flushing after a stop, data events append their chunks in delivery order |
| Recording.RunCons | app/page.tsx:203-292 | a trace that starts with an enabled event runs on from that event's step |
| Recording.RunAppend | app/page.tsx:203-292 | running two traces one after the other is running their concatenation |
| Recording.SessionStart | app/page.tsx:275-282 | click and grant leave an empty buffer and a recording recorder |
| Recording.RunOne | app/page.tsx:203-292 | a one-event trace is that event's step |
| Recording.SessionRun | app/page.tsx:203-292 | a session stopped by the deadline or by the recorder itself downloads one blob of the chunks delivered before and after the stop, in order, and ends idle inside the invariant; only a deadline stop uses up a timer |
| Recording.SessionDownloadsChunksInOrder | app/page.tsx:203-292 | a deadline-ended session downloads exactly one file made of all delivered chunks, including those flushed after `stop()`, in order; it uses up its own timer and ends idle with a completion notice, inside the invariant |
| Recording.SelfEndedSessionLeavesTimer | app/page.tsx:223-262 | a session whose recorder stops by itself downloads the same single file, but its deadline timer stays pending |
| Recording.StaleTimerReachable | app/page.tsx:258-262 | from the initial state a page is reachable where the button is enabled again, a deadline timer is pending, and nothing is recording |
| Recording.StaleTimerCutsNextSession | app/page.tsx:258-262 | a stale timer firing right after the next grant stops the new recording, while the new session's own timer stays pending |
| Recording.Coordinator.constructor | app/page.tsx:43-53 | not generating, no alert, no recorder, empty buffer, nothing pending |
| Recording.Coordinator.HandleDownload | app/page.tsx:203-212 | the fields change as `Download` says |
| Recording.Coordinator.OnPermissionGranted | app/page.tsx:214-262 | the fields change as `Granted` says |
| Recording.Coordinator.OnPermissionDenied | app/page.tsx:264-272 | the fields change as `Denied` says |
| Recording.Coordinator.OnDataAvailable | app/page.tsx:219-221 | the fields change as `DataArrived` says |
| Recording.Coordinator.OnDeadline | app/page.tsx:258-262 | the fields change as `Fired` says |
| Recording.Coordinator.OnRecorderEnded | app/page.tsx:223-246 | the fields change as `Ended` says |
| Recording.Coordinator.OnRecorderStopped | app/page.tsx:223-246 | the fields change as `Stopped` says |
| Toasts.NextCount | components/ui/use-toast.ts:24 | the counter stays below `MAX_SAFE_INTEGER`, goes up by one, and wraps to 0 after `MAX_SAFE_INTEGER - 1` |
| Toasts.Decimal | components/ui/use-toast.ts:25 | `toString` of a counter is a non-empty string of decimal digits with no leading zero |
| Toasts.DecimalRoundTrip | components/ui/use-toast.ts:25 | reading the decimal id back gives the counter value |
| Toasts.DecimalInjective | components/ui/use-toast.ts:25 | two ids are equal exactly when the counter values are |
| Toasts.CountAfterBeforeWrap | components/ui/use-toast.ts:21-26 | until the wrap, k calls of `genId` raise the counter by k |
| Toasts.CountWrapsToZero | components/ui/use-toast.ts:24 | the counter comes round to 0 |
| Toasts.ConsecutiveIdsDistinct | components/ui/use-toast.ts:23-26 | two different calls before the wrap return different ids |
| Toasts.SliceLast | components/ui/use-toast.ts:49 | `slice(-k)` keeps the last k elements, or all of a shorter list, in order |
| Toasts.AddToast | components/ui/use-toast.ts:49 | the list after `toast` is non-empty, holds at most `TOAST_LIMIT` toasts, ends with the new toast, and is the old list plus the new toast when there was room |
| Toasts.WithoutId | components/ui/use-toast.ts:38 | the filter keeps exactly the toasts with another id, never grows the list, and changes nothing when the id is absent |
| Toasts.WithoutIdAppend | components/ui/use-toast.ts:38 | the filter keeps the survivors' order |
| Toasts.Dismissed | components/ui/use-toast.ts:35-42 | a missing or empty id clears the list; a non-empty id removes exactly the toasts with that id |
| Toasts.DismissIdempotent | components/ui/use-toast.ts:35-42 | dismissing twice is dismissing once |
| Toasts.WithoutIdIdempotent | components/ui/use-toast.ts:38 | filtering an id out twice is filtering it once |
| Toasts.OwnDismissEmpties | components/ui/use-toast.ts:44-53 | a toast's own auto-dismiss, with nothing in between, leaves no toast |
| Toasts.StaleDismissKeepsNewer | components/ui/use-toast.ts:49-53 | the stale auto-dismiss of an older toast leaves the newer toast in place |
| Toasts.ToastStore.constructor | components/ui/use-toast.ts:21-33 | counter 0 and no toasts |
| Toasts.ToastStore.GenId | components/ui/use-toast.ts:23-26 | the counter advances as `NextCount` says, and the id is its decimal string |
| Toasts.ToastStore.Show | components/ui/use-toast.ts:44-56 | a fresh id; the list is the old one plus the new toast, cut to `TOAST_LIMIT`, ending with the new toast |
| Toasts.ToastStore.Dismiss | components/ui/use-toast.ts:35-42 | the list becomes `Dismissed` of the old one |

## Left out

- Speech synthesis, speech recognition (`toggleListening`, `onresult`, the `onend` restart that reads a stale `isListening`) and `handleStop` are browser APIs outside this core and are not modelled. The rate and pitch sliders are left out for the same reason.
- `handlePlay` is modelled only in its volume part (`UtteranceBuilt`). Its call at line 253 during a recording is not part of the `Recording` machine, and `isPlaying` is only an argument of the download click.
- The recording's estimated duration (line 257) is not modelled; the deadline is an event the environment delivers whenever a timer is pending.
- `URL.createObjectURL`, the temporary link, the file name and MIME type, stopping the stream's tracks, and the `AudioContext` teardown in the unmount cleanup (lines 141-154) are not modelled. A download is recorded as the bytes of its blob.
- The throw at line 205 depends on whether `audioContextRef.current` is already set. The model makes it an argument of the click instead of tracking the reference.
- The toast auto-dismiss timer (line 51, `options?.duration || 5000`) is not modelled as a clock. Its effect is the later `dismiss(id)` call, covered by `OwnDismissEmpties` and `StaleDismissKeepsNewer`. `TOAST_REMOVE_DELAY` is unused in the source.
- Toast titles, descriptions and actions are React nodes in the source and text here. `variant` is kept.
- `Intl.DisplayNames` and `localeCompare` are parameters; their locale data is not modelled. Which codes `Intl.DisplayNames.of` rejects is the parameter `accepts`, not a model of the subtag grammar. `SortGroups` is a stable insertion sort. `Array.prototype.sort` is stable, so the comparator alone determines the result given the input order.
- `Object.values` is modelled in key-insertion order. JavaScript lists integer-like keys first; primary language subtags are letters, so this ordering rule is not modelled. Keys inherited from `Object.prototype` are modelled: for "toString" or "valueOf" (well-formed letter subtags, so `.of` returns) `groups[langCode]` is the inherited method, no group is created and the `push` at line 80 throws a TypeError; `GroupVoices` aborts for every name in `InheritedKeys`. No registered language subtag equals one of these names.
- `onvoiceschanged` re-running `loadVoices` is a host callback. Each call from `onvoiceschanged` (line 97) is a `LoadVoices` call, and so is the mount call (line 100) when it does not throw.
- VoiceCatalog.Catalog.LoadVoices: the abort branch (groups and language kept, only the language effect runs) models a call from `onvoiceschanged` (line 97), where the exception ends only that callback. A throw during the mount call (line 100) escapes the `useEffect`; with no error boundary React then unmounts the page, and the rest of that effect (speech recognition and audio-context setup) never runs. The model does not capture that outcome.
- React's batching and re-rendering are not modelled. State updates apply at once, and the language effect runs right after each change to the voices, the language or the voice.
- Toasts.ConsecutiveIdsDistinct: proved only for calls before the counter wraps at `MAX_SAFE_INTEGER`; after a wrap the ids repeat (`CountWrapsToZero`).
- Recording.Denied: models only the rejection of the microphone request. The `.catch` at line 264 also catches a throw from the `.then` callback after `start()` and `setShowRecordingAlert(true)` (lines 249-262, e.g. from `handlePlay`). That path would leave the recorder recording, the alert shown, no deadline timer and `isGenerating` false, which is outside `Inv`. It is not modelled, so `ReachableKeepsInv` covers only runs in which each `.then` callback completes.
- Recording.DenialLeavesNothing: it promises only that a denial adds no timer, not that no timer is pending. A stale timer from an earlier self-stopped recorder can still be pending (`StaleTimerReachable`).
- The `async` wrapper of `handleDownload` is not modelled: the microphone promise is a pending request that a later event answers.
