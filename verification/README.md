# Look-ahead camera and text extractor, in Dafny

This project models two RPG Maker MV plugins by Mac15001900.

**MAC_Camera_Look_Ahead.js** keeps the camera one tile ahead of an idle player. The project
models it as a pure per-frame state machine. The state is `enabled`, `speed`, `cameraOffset`,
`offsetNextFrame` and `restoringInProgress`. Each frame reads a snapshot of the player and the
map: facing direction, whether the player is moving, their move speed, whether the map is
mid-scroll, and the geometry `canScroll` looks at. It returns the new state and the
`$gameMap.startScroll` requests it issues. Other pieces are modelled as separate functions:
- start-up speed validation;
- the four plugin commands;
- `restoreCamera`;
- `canScroll`;
- `reverseDirection`.

`CameraRun` feeds any interleaving of frames and commands through the controller. It proves
that the following hold over whole runs:
- the debounce invariant;
- the one-request-per-frame bound;
- the link between the plugin's own scroll requests and the offset recorded.

**MAC_Text_Extractor.js** extracts the dialogue of a game into one text file. The project models
its four formatters: `showList`, `showEvent`, `showCommonEvent` and `showMap`. Each turns event
data into a string:
- `showList` works on a command list;
- `showEvent` on a map event, with its pages and its `<NoExtraction>` tag;
- `showCommonEvent` on a common event;
- `showMap` on a map.

`Strings` models the two JavaScript string conversions the formatters rely on:
- `Array.prototype.join`;
- the decimal rendering of an id.

Files:
- `wrappers.dfy`: `Option` and `Result`.
- `directions.dfy`: the direction enum and `reverseDirection`.
- `map_scroll.dfy`: map geometry and `canScroll`.
- `camera.dfy`: configuration, commands, `restoreCamera` and the frame step.
- `camera_run.dfy`: runs of many inputs.
- `strings.dfy`: join, filter and integer rendering.
- `text_extractor.dfy`: the formatters.

Modelling decisions:
- Directions are the five values NONE, DOWN, LEFT, RIGHT and UP. In the source, the `default`
  arms of `reverseDirection` and `canScroll` handle "any other value". In the model that reduces
  to NONE.
- `canScroll`'s default arm returns `Direction.NONE`, which is 0 and falsy. The model reads it
  as `false`.
- `speed || this.moveSpeed()` is `ResolveSpeed`: a speed of 0 follows the player's move speed.
- The player's `cameraOffset` starts at NONE (see "Left out" for the lazy initialisation).
- After the forward scroll is started within a frame, the rest of that frame sees the map as
  scrolling. That is what `isScrolling()` reports after `startScroll`.
- Speeds, move speeds, screen sizes in tiles and display offsets are real numbers. Map sizes
  are integers.
- Event commands are `(code, parameters)`. The model keeps the editor's guarantee that a 401
  line carries its text as `parameters[0]` and a 102 command carries its option list there, as
  the subset type `Command`.
- `showCommonEvent(id)` receives the looked-up `$dataCommonEvents[id]` as an `Option`. It does
  not read the global.

## Model

| member | source | states |
|---|---|---|
| Directions.Code | MAC_Camera_Look_Ahead.js:71-77 | the engine values are even numbers in 0..8, and 0 is exactly NONE |
| Directions.Reverse | MAC_Camera_Look_Ahead.js:129-137 | NONE maps to NONE and every compass direction to a different one; the engine value becomes 10 minus the original, both screen deltas are negated, and the axis is kept |
| Directions.ReverseInvolution | MAC_Camera_Look_Ahead.js:129-137 | reversing twice gives back the original direction |
| Directions.ReverseInjective | MAC_Camera_Look_Ahead.js:129-137 | distinct directions have distinct reverses |
| MapScroll.CanScroll | MAC_Camera_Look_Ahead.js:118-126 | NONE can never scroll; a direction along a looping axis always can |
| MapScroll.CanScrollMeansRoom | MAC_Camera_Look_Ahead.js:120-123 | on a non-looping axis, scrolling is possible iff the map is at least as large as the viewport and there is room left towards that edge |
| MapScroll.CanScrollBothWays | MAC_Camera_Look_Ahead.js:93 | the symmetric look-ahead check passes iff the axis loops, or the map is at least as large as the viewport and there is room towards both edges |
| MapScroll.ExactFitNeverOffsets | MAC_Camera_Look_Ahead.js:93 | on a non-looping axis where the map exactly fits the viewport, the symmetric check always fails |
| CameraLookAhead.InitSpeed | MAC_Camera_Look_Ahead.js:52-54 | start-up aborts iff the speed is negative; a speed above 8 becomes exactly 8 and any other is kept, so the result lies in 0..8 |
| CameraLookAhead.InitSpeedIdempotent | MAC_Camera_Look_Ahead.js:52-54 | an accepted speed passes validation unchanged |
| CameraLookAhead.Init | MAC_Camera_Look_Ahead.js:49-56 | start-up fails iff the speed is negative; otherwise the plugin is enabled iff the parameter is exactly "true", the speed is the validated configured speed (so in 0..8), the camera is centred and nothing is pending |
| CameraLookAhead.ApplyCommand | MAC_Camera_Look_Ahead.js:60-68 | each command sets its own field (SetLookAheadSpeed with no clamping); every field changes only under its own command; offset and debounce never change, so an unknown command changes nothing |
| CameraLookAhead.ApplyCommandIdempotent | MAC_Camera_Look_Ahead.js:62-67 | issuing the same command twice has the effect of issuing it once |
| CameraLookAhead.ResolveSpeed | MAC_Camera_Look_Ahead.js:94 | a non-zero speed is used as is; zero follows the player's move speed |
| CameraLookAhead.Restore | MAC_Camera_Look_Ahead.js:107-115 | succeeds iff the camera is offset and the map is not scrolling; on failure nothing changes and nothing is issued; on success the offset becomes NONE and nothing else changes; exactly one reverse scroll is issued unless the player walks in the offset direction |
| CameraLookAhead.PendingCheck | MAC_Camera_Look_Ahead.js:91-98 | the pending flag is always cleared and nothing else but the offset changes; the forward scroll is issued iff the player is idle and `canScroll` holds both ways, and then it is the only request, the offset becomes the facing direction and the map counts as scrolling; otherwise the offset and the frame are unchanged |
| CameraLookAhead.IdleOrMoving | MAC_Camera_Look_Ahead.js:99-103 | an idle player issues nothing and keeps the offset, and the debounce ends up armed iff it was already armed or the camera is centred; a moving player keeps the debounce flag; with the camera centred nothing changes; with the camera offset and the map not scrolling, the camera is recentred with the scroll back unless the player walks in the offset direction; mid-scroll nothing changes |
| CameraLookAhead.Step | MAC_Camera_Look_Ahead.js:81-104 | a frame issues at most one scroll; it never changes `enabled` or `speed` and never starts a restore; it keeps the debounce invariant |
| CameraLookAhead.RestorePreempts | MAC_Camera_Look_Ahead.js:83-86 | while restoring, a frame is exactly the restore attempt; the flag is cleared iff the attempt succeeds, and the debounce flag is untouched |
| CameraLookAhead.DisabledIsQuiet | MAC_Camera_Look_Ahead.js:87 | a disabled controller with no restore pending changes nothing and issues nothing |
| CameraLookAhead.FirstIdleFrameOnlyArms | MAC_Camera_Look_Ahead.js:99-100 | an idle, centred frame with no pending check only arms the debounce |
| CameraLookAhead.PendingWaitsForScroll | MAC_Camera_Look_Ahead.js:91-92 | with a check pending and the map mid-scroll, the frame changes nothing, including the idle/moving logic |
| CameraLookAhead.OffsetExactlyWhenChecked | MAC_Camera_Look_Ahead.js:91-98 | a frame moves the offset to a new direction iff it began with a pending check, map not scrolling, player idle and both `canScroll` calls true; it then issues exactly the forward scroll at the resolved speed and records the facing direction; any other frame ends at its old offset or centred |
| CameraLookAhead.ScrollWhileOffsetIsForward | MAC_Camera_Look_Ahead.js:93-96 | a scroll after which the camera stays offset is the debounced forward scroll |
| CameraLookAhead.MovingCancelsOffset | MAC_Camera_Look_Ahead.js:101-111 | when moving while offset (map not scrolling), the same frame recentres the camera and changes nothing else; it scrolls back unless the player walks in the offset direction |
| CameraLookAhead.WalkingCentredIsQuiet | MAC_Camera_Look_Ahead.js:101-114 | a walking frame with the camera centred and no check pending changes nothing and issues nothing |
| CameraLookAhead.WalkingDisarms | MAC_Camera_Look_Ahead.js:91-103 | after a walking frame (map not scrolling) no offset check is pending, so the debounce starts over on the next idle frame |
| CameraLookAhead.NoScrollWhileScrolling | MAC_Camera_Look_Ahead.js:83-115 | no frame issues a scroll while the map is mid-scroll, whatever the state |
| CameraLookAhead.IdleKeepsOffset | MAC_Camera_Look_Ahead.js:99-103 | once offset, an idle player's frame changes nothing and issues nothing, so the camera stays ahead |
| CameraLookAhead.FailedCheckRearms | MAC_Camera_Look_Ahead.js:97-103 | a pending check that does not fire clears the flag, then the same frame re-arms it iff the player is idle; nothing scrolls |
| CameraLookAhead.MovingWhileScrollingWaits | MAC_Camera_Look_Ahead.js:101-108 | a moving player with an offset while the map is mid-scroll changes nothing and issues nothing |
| CameraLookAhead.RestoreCorrected | MAC_Camera_Look_Ahead.js:107-115 | corrected `restoreCamera`: it succeeds iff the camera is already centred or the map is not scrolling; a centred camera is left as it is, and an offset one is restored as in the source |
| CameraLookAhead.StepCorrected | MAC_Camera_Look_Ahead.js:83-86 | with the corrected restore, a restore in progress ends iff the camera is centred or the map is not scrolling; one requested while centred ends on the next frame without a scroll; every other frame equals the as-written frame |
| CameraLookAhead.StepTracksDisplacement | MAC_Camera_Look_Ahead.js:81-115 | unless a restore skips its reverse scroll, the plugin's scroll requests in a frame add up to the change of the recorded offset (scrolls started by the engine or other events are not counted) |
| CameraRun.Run | MAC_Camera_Look_Ahead.js:60-104 | no input leaves the state unchanged and silent; a single input has exactly its own effect |
| CameraRun.RunConcat | MAC_Camera_Look_Ahead.js:60-104 | running two lists of inputs one after the other is running their concatenation, with the requests in order |
| CameraRun.StuckRestore | MAC_Camera_Look_Ahead.js:83-86 | a RestoreCamera issued while the camera is centred never completes: whatever inputs follow, the flag stays set, the camera stays centred and no scroll is ever issued |
| CameraRun.RunKeepsValid | MAC_Camera_Look_Ahead.js:91-103 | over any mix of frames and commands, a pending check is only ever armed while the camera is centred |
| CameraRun.RunScrollsAtMostTicks | MAC_Camera_Look_Ahead.js:60-104 | a run issues at most one scroll per frame, and commands issue none |
| CameraRun.DisabledRunIsQuiet | MAC_Camera_Look_Ahead.js:87 | any number of frames leaves a disabled controller (no restore pending) unchanged and silent |
| CameraRun.RunTracksDisplacement | MAC_Camera_Look_Ahead.js:81-115 | when no restore skips its reverse scroll, the plugin's scroll requests over a whole run add up to the change of the recorded offset |
| CameraRun.LookAheadScenario | MAC_Camera_Look_Ahead.js:91-110 | facing right and idle with room both ways: frame 1 arms the debounce, frame 2 scrolls right and records the offset, and walking up on frame 3 scrolls back left and recentres |
| Strings.Join | MAC_Text_Extractor.js:52 | no items join to "", and a single item joins to itself |
| Strings.JoinConcat | MAC_Text_Extractor.js:52 | joining two non-empty lists puts exactly one separator between their joins |
| Strings.NonEmpty | MAC_Text_Extractor.js:50 | the filter never lengthens the list; a single string is kept iff it is non-empty |
| Strings.NonEmptyConcat | MAC_Text_Extractor.js:50 | the non-empty filter keeps order across a split of the list |
| Strings.NonEmptyExact | MAC_Text_Extractor.js:50 | the filter keeps exactly the non-empty strings and is empty iff every input is empty |
| Strings.IntToString | MAC_Text_Extractor.js:52 | an id renders as its decimal digits, with a leading minus iff it is negative |
| Strings.NatToStringRoundTrip | MAC_Text_Extractor.js:52 | the digits of an id read back as the same number |
| Strings.IntToStringInjective | MAC_Text_Extractor.js:52 | distinct ids render as distinct text in a header |
| TextExtractor.Bullets | MAC_Text_Extractor.js:42 | each choice option becomes one line, in order, prefixed "  -" |
| TextExtractor.CommandText | MAC_Text_Extractor.js:40-42 | a command adds text iff its code is 101, 401 or 102: 101 adds exactly a line break; 401 adds its first parameter and a line break; 102 adds "\nChoice:\n", its bulleted options joined by line breaks, and a final line break |
| TextExtractor.ListText | MAC_Text_Extractor.js:37-43 | an empty list accumulates nothing and one command accumulates exactly its own text (`ListTextConcat` extends this to any list) |
| TextExtractor.ListTextEmptyIff | MAC_Text_Extractor.js:39-43 | a command list accumulates nothing iff none of its commands has code 101, 401 or 102 |
| TextExtractor.ListTextConcat | MAC_Text_Extractor.js:39-43 | commands contribute in list order |
| TextExtractor.SilentCommandIgnored | MAC_Text_Extractor.js:39-43 | removing a command with any other code leaves the text unchanged |
| TextExtractor.ShowList | MAC_Text_Extractor.js:36-45 | for a list that opens with Show Text or Show Choices, the result is the accumulated text without its leading line break |
| TextExtractor.ShowListAfterSilentPrefix | MAC_Text_Extractor.js:36-44 | after any run of non-printing commands, a list whose first printing command is 101 or 102 renders as its accumulated text without that command's opening line break |
| TextExtractor.ShowListSilent | MAC_Text_Extractor.js:36-44 | a list without the three printing codes renders as "" |
| TextExtractor.ShowListAppend | MAC_Text_Extractor.js:39-44 | commands appended to a list that already prints are appended to its result |
| TextExtractor.PageStrings | MAC_Text_Extractor.js:50 | there is one page string per page, and it is that page's `showList` |
| TextExtractor.PageTexts | MAC_Text_Extractor.js:50 | no more texts than pages; a single page gives its `showList` text iff that text is non-empty (`PageTextsConcat` extends this to any pages) |
| TextExtractor.PageTextsExact | MAC_Text_Extractor.js:50 | an event's page texts are exactly the non-empty `showList` results, and there are none iff every page renders empty |
| TextExtractor.PageTextsConcat | MAC_Text_Extractor.js:50 | page texts keep page order |
| TextExtractor.ShowEvent | MAC_Text_Extractor.js:48-53 | a missing or tagged event renders ""; a non-empty result is the "--- Event name (id) ---" header followed by the non-empty page texts joined by the page rule |
| TextExtractor.ShowEventEmptyIff | MAC_Text_Extractor.js:49-51 | an event renders "" iff it is missing, tagged, or every page renders empty |
| TextExtractor.ShowEventFromTexts | MAC_Text_Extractor.js:50-52 | an untagged event's text depends on its pages only through their non-empty texts |
| TextExtractor.SilentPageIgnored | MAC_Text_Extractor.js:50-52 | a page that renders empty leaves no trace: no empty section and no extra rule |
| TextExtractor.EventPagesInOrder | MAC_Text_Extractor.js:50-52 | two page groups that both print appear in page order with exactly one rule between them |
| TextExtractor.ShowCommonEvent | MAC_Text_Extractor.js:56-62 | the result is "" iff the event is missing or its list renders empty; otherwise it starts with the "--- Common Event name (id) ---" header for the requested id, followed by more text |
| TextExtractor.CommonEventLikeOnePageEvent | MAC_Text_Extractor.js:48-62 | a common event renders like an untagged one-page map event with the same list: empty together, and otherwise the same body under its own header |
| TextExtractor.EventsText | MAC_Text_Extractor.js:67-71 | a non-empty event listing ends with a line break |
| TextExtractor.EventsTextEmptyIff | MAC_Text_Extractor.js:68-71 | the events print nothing iff each event renders "" |
| TextExtractor.EventsTextConcat | MAC_Text_Extractor.js:68-71 | event texts are concatenated in index order |
| TextExtractor.ShowMap | MAC_Text_Extractor.js:65-73 | a tagged map renders ""; the result is "" iff the map is tagged or every event renders ""; a non-empty result ends with a line break |
| TextExtractor.ShowMapAppendEvent | MAC_Text_Extractor.js:68-71 | appending an event to an untagged map appends its text plus a line break, or nothing when the event renders "" |

## Left out

- MAC_Extended_Loading_Screens.js: it replaces the scene update with wall-clock timing and has no pure logic to state.
- `runExtractor`, `tryLoadingMap`, `saveExtractedText` (MAC_Text_Extractor.js:76-146): timers, asynchronous map loading, global game data, file writes and console output.
- `simpleUnescape` (MAC_Text_Extractor.js:95-102): it delegates to the engine's `convertEscapeCharacters`, which is not part of this model, and then applies regular expressions.
- The host's `$gameMap.startScroll`, `isScrolling`, player movement and `PluginManager.parameters`: they are inputs (the frame snapshot, the parsed parameters) or outputs (scroll requests).
- Prototype aliasing: the calls to the original `Game_Player.update` and `pluginCommand` happen before the added logic and are not modelled; the snapshot is taken after them.
- Lazy initialisation of `cameraOffset` (MAC_Camera_Look_Ahead.js:89): the model starts at NONE. In the source the field stays `undefined` until the first enabled frame. A RestoreCamera command processed before then would see `undefined !== NONE` and call `startScroll(0, 1, ...)`. That edge case is not modelled.
- The abort at MAC_Camera_Look_Ahead.js:53 calls `new Exception(...)`, which is not a JavaScript global, so a ReferenceError is raised instead. The model records only that start-up fails (`Failure(NegativeSpeed)`).
- `Number(...)` yielding NaN, and floating-point rounding: speeds and positions are exact reals.
- Malformed command data (a 401 or 102 without the expected first parameter) is excluded by the `Command` type. On such data the source prints "undefined" or throws.
- TextExtractor.ShowList: its own contract covers lists that open with Show Text or Show Choices. `ShowListAfterSilentPrefix` covers lists where non-printing commands come first. No contract covers a list whose first printing command is a 401 text line. For such a list the model still removes the first character, as `substring(1)` does. Text-free lists are covered by `ShowListSilent` and appended text by `ShowListAppend`.
- `substring(1)` removes one UTF-16 code unit. The model's `char` is a whole Unicode scalar value. The two differ only when the first accumulated character lies outside the Basic Multilingual Plane, which is never the case when it is the line break of a 101 or 102.
- CameraLookAhead.Step: its own contract states only the frame-wide bounds. Other lemmas state the behaviour of each branch:
  - restoring: `RestorePreempts`;
  - disabled: `DisabledIsQuiet`;
  - pending check while the map scrolls: `PendingWaitsForScroll`;
  - pending check that fires: `OffsetExactlyWhenChecked`;
  - pending check that does not fire: `FailedCheckRearms`;
  - idle and centred: `FirstIdleFrameOnlyArms`;
  - idle and offset: `IdleKeepsOffset`;
  - moving while centred, no check pending: `WalkingCentredIsQuiet`;
  - moving while offset: `MovingCancelsOffset` and `MovingWhileScrollingWaits`.
  Two lemmas cut across the branches: `WalkingDisarms` for the debounce, and `NoScrollWhileScrolling` for scrolls.
  The helpers `PendingCheck` and `IdleOrMoving` state the pieces a frame is built from.
- The player's facing direction is always one of the five modelled values; RPG Maker only uses 2, 4, 6 and 8.

## Findings

| source | as written | input that shows it | evidently intended | confidence | as-written member | corrected member |
|---|---|---|---|---|---|---|
| MAC_Camera_Look_Ahead.js:83-86, 107-115 | `restoreCamera` returns false when the camera is already centred, so `restoringInProgress` is never cleared. From then on every frame returns at line 85, and EnableLookAhead cannot bring the look-ahead back. | DisableLookAhead while the player walks (camera centred), then RestoreCamera, as the help text at lines 18-20 suggests; every later frame keeps the flag set and never offsets the camera, until a New Game or a save load replaces the player object | a restore requested while the camera is centred has nothing to do and completes at once | medium, not executed | CameraRun.StuckRestore | CameraLookAhead.StepCorrected |

The session model (`Step`, `Run`) keeps the source's behaviour. `RestoreCorrected` and `StepCorrected` are the corrected restore and frame. `StepCorrected` differs from `Step` only on a restore requested while the camera is centred.
