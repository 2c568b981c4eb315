# Main display of the Homebrew App Store: startup sequence and redraw throttle

This project models, in Dafny, the top-level controller of the Homebrew App Store client
(`MainDisplay` in `gui/MainDisplay.cpp`), as far as it has logic of its own:

- **The splash gate.** `render` marks the splash as drawn while it shows. The first no-op input
  event after that, with no subscreen open, runs the startup sequence once.
- **The startup sequence.** It ends the splash and puts up the spinner: red on the Switch,
  green with a green background on Earth Day (April 22). It installs the download-progress
  callback and constructs the package client. Then it ORs the repositories' health into two
  flags and runs three checks in order, the first failure winning:
  1. some repository not loaded: "Couldn't connect to the Internet!", naming the first repository's URL;
  2. no repository enabled: "Couldn't connect to a server!";
  3. the SD-card write test fails: "Cannot access SD card!", with a Wii U or Switch hint.
  If all pass, `beginInitialLoad` hands the client to the app list, removes the spinner and
  drops the callback.
- **"Ignore This".** On an error screen this button adds a local repository, asks for a
  redraw, runs `beginInitialLoad` and closes the screen. It does not run the checks again.
- **The redraw throttle** of the progress callback `updateLoader`. It redraws only when at
  least 32 ticks have passed or the download is complete. A redraw turns the spinner by 10
  and records the time.

Layout of the model:

- `repos.dfy` (module `Repos`): the repository records, the OR-folds and the scan loop.
- `storage_probe.dfy` (`StorageProbe`): the write test and the first-line read.
- `screens.dfy` (`Screens`): the error screens as message and troubleshooting text.
- `splash.dfy` (`Splash`): Earth Day and the spinner image.
- `throttle.dfy` (`Throttle`): the redraw decision.
- `probes.dfy` (`Probes`): the checks in order, and the screen each failure maps to.
- `main_display.dfy` (`Display`): the display's fields as a `DisplayState` value, with one
  spec function per operation, and the class `MainDisplay`. Each method of the class updates
  the fields in place and is proved to produce exactly its spec function's state.
  The startup branch of `process` is split into `Startup`, `EndSplash`, `FetchClient`,
  the `ScanRepos` loop and `RunChecks`, one per phase of the source. This only keeps each proof small.
- `sessions.dfy` (`Sessions`): runs over sequences of events, for facts that span calls.
- `optional.dfy` and `platforms.dfy`: `Option` and the platform enumeration.

Inputs from outside the display are parameters:

- the package client (its repositories and temporary directory);
- the progress readings with which the transfer layer calls the callback while the client fetches;
- what the card did during the write test (which opens succeeded, and what was read back);
- the platform and its display name (the `PLATFORM` macro);
- today's zero-based month and day;
- the tick counter;
- what the toolkit's own `RootDisplay::process` answers.

Two details of the source the model keeps:

- After a redraw, the throttle stores a second reading of the tick counter, not the reading
  it compared against. `UpdateLoader` takes both.
- The read stream is opened even when the write failed. Only the outcome matters, and the
  file is removed only when the read opened after a successful write.

## Model

| member | source | states |
|---|---|---|
| Repos.AnyUnloadedIff | gui/MainDisplay.cpp:139-143 | the OR-fold of "not loaded" over the repositories is true exactly when some repository did not load |
| Repos.AnyEnabledIff | gui/MainDisplay.cpp:139-143 | the OR-fold of "enabled" is true exactly when some repository is enabled |
| Repos.ScanRepos | gui/MainDisplay.cpp:139-143 | the loop leaves `error` = old `error` OR some repository not loaded, and `atLeastOneEnabled` = old value OR some repository enabled; starting from a clear `error`, a set `error` implies a non-empty list, so `repos[0]` is in range |
| StorageProbe.FirstLine | gui/MainDisplay.cpp:176-177 | the line `getline` reads is the longest newline-free prefix of the file: a prefix, with no newline, stopped only by a newline or the end |
| StorageProbe.FirstLineIs | gui/MainDisplay.cpp:176-180 | for a newline-free string, the line read equals it exactly when the file holds it alone or followed by a newline |
| StorageProbe.FirstLineIsMagic | gui/MainDisplay.cpp:162-180 | the line read equals the sentence exactly when the file is the sentence, alone or as its first whole line |
| StorageProbe.WriteTest | gui/MainDisplay.cpp:161-185 | `writeFailed` holds iff the write did not open, the read did not open, or the first line read is not the sentence; the file is removed iff the read opened after a successful write |
| Screens.InternetHelpShape | gui/MainDisplay.cpp:147 | the network help names the platform's system settings first and ends with the first repository's URL |
| Screens.CardHelpShape | gui/MainDisplay.cpp:188-193 | the card help ends with "Ensure <test file> is writable", preceded by the write-lock hint on Wii U, the EXFAT hint on Switch, and nothing elsewhere |
| Splash.SpinnerFor | gui/MainDisplay.cpp:112-121 | the spinner is green exactly on Earth Day; otherwise red exactly on the Switch and plain elsewhere |
| Throttle.Redraws | gui/MainDisplay.cpp:214-224 | the callback redraws exactly when at least 32 ticks have passed or the downloaded amount equals the (effective) total; with a zero total, when the amount is one |
| Throttle.FinishedAlwaysRedraws | gui/MainDisplay.cpp:221-224 | a finished download is always drawn, however recent the last frame |
| Probes.Probe | gui/MainDisplay.cpp:145-197 | a network failure carries the first repository's URL (and the list is non-empty); a card failure carries the test file path |
| Probes.ErrorScreenText | gui/MainDisplay.cpp:145-196 | each failure has its own message; the network help ends with the URL, the server screen is fixed text, the card help ends with the line naming the test file |
| Probes.UnloadedRepoWins | gui/MainDisplay.cpp:139-149 | one unloaded repository makes the outcome the network failure with the first repository's URL, even when others are enabled |
| Probes.NoEnabledRepoIsServerError | gui/MainDisplay.cpp:151-155 | with every repository loaded and none enabled, the empty list included, the outcome is the server failure |
| Probes.CardCheckedLast | gui/MainDisplay.cpp:157-197 | once both repository checks pass, the outcome is decided by the write test alone |
| Probes.ProbeOkIff | gui/MainDisplay.cpp:139-201 | all checks pass iff every repository loaded, one is enabled, both opens succeeded and the card gave back the sentence as its first line |
| Display.LoaderRun | gui/MainDisplay.cpp:212-233 | a run of progress callbacks changes only the spinner's angle, the splash-drawn flag (set, never cleared, and only while the splash shows) and the last redraw time; the spinner stays, keeps its image and never turns backwards |
| Display.CompletedFetchIsDrawn | gui/MainDisplay.cpp:221-231 | when the last callback of a fetch reports the download complete, it is drawn: the spinner has turned by at least 10 and that callback's tick is stored |
| Display.EarthDayLook | gui/MainDisplay.cpp:111-121 | after the sequence the background is green exactly on April 22 (zero-based month 3) and unchanged otherwise (the date test of `isEarthDay`, lines 273-278); the spinner stays up exactly on an error screen, and is then green on Earth Day on every platform, otherwise red on the Switch and plain elsewhere |
| Display.InitialState | gui/MainDisplay.cpp:14-28 | a new display shows an undrawn splash, keeps its invariant, and has no client, spinner or subscreen |
| Display.StartupLoadsOnlyWhenChecksPass | gui/MainDisplay.cpp:145-201 | the sequence ends the splash; it closes with no error screen iff every check passed, and then the app list has the client, the spinner is gone and the callback is off; on failure the app list is untouched and spinner and callback stay |
| Display.UnloadedRepoShowsInternetScreen | gui/MainDisplay.cpp:145-149 | an unloaded repository yields the "Couldn't connect to the Internet!" screen with the first repository's URL |
| Display.NoEnabledRepoShowsServerScreen | gui/MainDisplay.cpp:151-155 | all loaded and none enabled yields the "Couldn't connect to a server!" screen |
| Display.FailedWriteShowsCardScreen | gui/MainDisplay.cpp:187-197 | with the repositories fine, a failed write test yields the "Cannot access SD card!" screen naming the test file |
| Display.MainDisplay.constructor | gui/MainDisplay.cpp:14-28 | the new object's fields are the initial state, which satisfies the invariant |
| Display.MainDisplay.Render | gui/MainDisplay.cpp:96-103 | marks the splash drawn only while it shows; keeps the invariant |
| Display.MainDisplay.BeginInitialLoad | gui/MainDisplay.cpp:80-94 | callback off, spinner removed, app list given the client, app list and hints refreshed once, nothing else changed |
| Display.MainDisplay.Process | gui/MainDisplay.cpp:105-210 | runs the startup sequence (and answers true) exactly when no subscreen is open, the splash shows and was drawn and the event is a no-op; otherwise refreshes the app list when a redraw is pending and answers what the toolkit answers |
| Display.MainDisplay.Startup | gui/MainDisplay.cpp:107-202 | the new state is the whole sequence's state: splash ended, client fetched with the progress callbacks drawn along the way, repositories scanned, first failure's screen or the app list loaded |
| Display.MainDisplay.EndSplash | gui/MainDisplay.cpp:109-133 | splash off, Earth Day background, spinner at angle 0 with the chosen image, callback installed |
| Display.MainDisplay.FetchClient | gui/MainDisplay.cpp:133-136 | while the client fetches its metadata, the installed callback runs once per progress reading, in order; then the client is stored |
| Display.MainDisplay.RunChecks | gui/MainDisplay.cpp:145-201 | with the flags scanned, shows the first failed check's screen, or loads the app list when all pass |
| Display.MainDisplay.UpdateLoader | gui/MainDisplay.cpp:212-234 | always answers 0; when throttled nothing changes, otherwise the spinner (if any) turns by 10, the display is drawn and the second tick reading is stored |
| Display.MainDisplay.IgnoreThis | gui/MainDisplay.cpp:255-263 | appends the local repository to the client, sets the redraw flag, loads the app list with that client and closes the error screen, with no check run again |
| Sessions.Step | gui/MainDisplay.cpp:96-110 | every event keeps the invariant (including that no progress callback is installed while the splash shows), and once the splash is gone no event brings it back |
| Sessions.StartupRunsAtMostOnce | gui/MainDisplay.cpp:98-109 | over any sequence of events the startup sequence runs at most once, and never once the splash is gone |
| Sessions.NoStartupBeforeFirstFrame | gui/MainDisplay.cpp:96-107 | until a draw event renders the splash, no input event starts the sequence, whatever progress, input and "Ignore This" events arrive (progress callbacks are installed only after the splash is gone) |
| Sessions.FreshDisplayStartsOnce | gui/MainDisplay.cpp:98-109 | from a freshly constructed display, any run starts the sequence at most once |

## Left out

- Widget construction and layout are not modelled, and the screens are only message and text. This covers constraints, sizes, positions, `append`/`remove`, the 3DS spinner placement, the `ErrorScreen` layout, its icon and title, the "Troubleshooting:" label it adds, and its Quit button.
- Audio is not modelled (`setupMusic`, `getDefaultAudioStateForPlatform`, `playSFX`). It is a wrapper over the sound library.
- The package client's construction is not modelled: the network fetch, the repository parsing, and what `addLocalRepo` builds. The client is a given value, the progress callbacks its fetch makes are a given sequence of readings, and the local repository is a parameter of `IgnoreThis`.
- Real file I/O is not modelled (opening, writing, reading, deleting). The write test takes the streams' outcome as a value. `WriteTest` reports the deletion as a result, and it is not kept in the display state.
- `appList.update()` and `addHints()` are counted, not modelled. They belong to the app-list and sidebar views, which are not part of this model.
- Drawing and the toolkit's own `process` are not modelled. `render` is reduced to its splash flag. What `RootDisplay::process` answers is a parameter.
- The destructor and memory management are not modelled.
- MainDisplay.hpp is not part of this model. The initial field values are taken as: splash showing, not drawn, flags clear, no spinner, client or subscreen. The initial background colour and `lastFrameTime` are constructor parameters. A new spinner's angle is taken as 0.
- `Display.MainDisplay.UpdateLoader`: the download counters are exact `real`s, not doubles. Floating-point rounding of the fraction is not modelled. Tick values are unbounded integers, so the wrap-around of the `int` subtraction is not modelled. The callback's unused arguments (the context pointer and the upload counters) are dropped.
- `Display.MainDisplay.IgnoreThis`: the client and the spinner are held as values. The aliasing between the display's client pointer and the one given to the app list is not captured: later in-place changes to the client through one pointer are not seen through the other.
- The global `mainDisplay` pointer and the static `lastFrameTime` become the one display object and a field of it.
- `quit` is not modelled.
