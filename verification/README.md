# Ghost Shell, modelled in Dafny

Ghost Shell mirrors one window of a Windows desktop to a phone and sends
the phone's taps, keys and text back to it. Three generations of the
server live side by side:

- the legacy WebSocket server in Python (`legacy/python_websocket/ghost_server.py`),
  with its graphics-capture helper, its system-audio capture and a browser
  speech recogniser;
- the earlier single-file Python server (`ghost_server.py`);
- the Go server (`main.go`, `input.go`, `window.go`, `audio.go`).

Beside them sit the Python encoder chain (`encoders.py`), the WebRTC audio
track (`audio_capture.py`) and the WebRTC video track and peer manager
(`legacy/webrtc/webrtc_server.py`).

Under the Windows calls sits decision logic, and that logic is what this
project models and proves things about:

- which window is the target (locked title or handle, hard and soft locks,
  auto-release, the "sticky" display bookkeeping that never records the
  viewer's own window);
- which capture backend is used and when a frame is rejected;
- which encoder is chosen and what format label it reports;
- how a stream cycle drains commands, adapts to a slow link and paces itself;
- how phone coordinates, keys, text and scrolls become input events;
- the phone-shaped window placement and the saved original rectangles;
- the byte-level audio work: sample decoding, stereo remix, 16-bit
  serialisation, bounded queues and the WAV header;
- the WebRTC frame normalisation and the speech recogniser's flags.

Every call into the operating system, a capture library, an encoder or the
network is a parameter of the model: the foreground window, the window
list, a window's rectangle, whether a grab worked and what it returned,
whether a write timed out. Module-level state that the handlers rewrite
(the locked title, the pending activation, the frame delay, the saved
rectangles) is a class whose methods change its fields. The stream and
request methods state their new state as a pure step function of the old
one, and the properties are proved about those step functions; a few
smaller methods state only the fields they change.

One module per source concern:

| file | module | models |
|---|---|---|
| common.dfy | Common | Option, Result and small integer helpers |
| text.dfy | Text | substring search, Python and JavaScript strip, split, Python `int()` and Go `Atoi` |
| desktop.dfy | Desktop | window snapshots, the skip titles and the target-window rule shared by both Python servers |
| geometry.dfy | Geometry | the phone-shaped placement, with Python floor and Go truncating division |
| legacy_capture.dfy | LegacyCapture | engine choice, backend fallback, the bounds check and the near-black thresholds |
| interaction.dfy | Interaction | the `/interact` vocabulary of both Python servers: input operations, replies, parameter parsing, the close-window check and the error wrapper |
| legacy_server.dfy | LegacyServer | the legacy tracker, `interact`, `process_command` and the stream cycle |
| early_server.dfy | EarlyServer | the earlier Python server |
| go_input.dfy | GoInput | key mapping and the input events of `input.go` |
| go_window.dfy | GoWindow | `itoa`, window enumeration, work area, visual bounds, activation order |
| go_frames.dfy | GoFrames | capture rectangle, BGRA to RGBA swap, frame similarity and the buffered writer |
| go_server.dfy | GoServer | lock handlers, input dispatch, adapt and restore, link adaptation and the stream |
| go_audio.dfy | GoAudio | `audio.go` |
| encoders.dfy | Encoders | `encoders.py` |
| wasapi.dfy | Wasapi | the loopback-device choice shared by both audio captures |
| rtc_audio.dfy | RtcAudio | `audio_capture.py` |
| legacy_audio.dfy | LegacyAudio | `legacy/python_websocket/audio_capture.py` |
| wgc.dfy | Wgc | `legacy/python_websocket/wgc_capture.py` |
| webrtc.dfy | WebRtc | `legacy/webrtc/webrtc_server.py` |
| speech.dfy | Speech | `legacy/python_websocket/speech/speech-recognizer.js` |

## Model

| member | source | states |
|---|---|---|
| Text.ContainsAt | ghost_server.py:174 | a title contains the locked title whenever the locked title occurs in it at some offset |
| Text.ContainsGivesOffset | ghost_server.py:174 | a title that contains the locked title has it at some offset, so containment means occurrence |
| Text.LongerNotContained | ghost_server.py:174 | a locked title longer than a window's title never matches that window |
| Text.ContainsSelf | ghost_server.py:174 | a window always matches its own full title |
| Text.TrimStart | legacy/python_websocket/ghost_server.py:1271 | the result is a suffix of the input, everything dropped is whitespace, and it starts with a non-space |
| Text.TrimEnd | legacy/python_websocket/ghost_server.py:1271 | the result is a prefix of the input, everything dropped is whitespace, and it ends with a non-space |
| Text.TrimProperties | legacy/python_websocket/speech/speech-recognizer.js:68 | a trimmed string occurs in the input, has no whitespace at either end, is unchanged by trimming again, and is empty exactly when the input is all whitespace |
| Text.RemoveAll | legacy/python_websocket/ghost_server.py:1271 | the removed character no longer occurs, every other character of the input is still there, and an input without it is unchanged |
| Text.AsciiLower | legacy/python_websocket/ghost_server.py:1158 | same length; each A-Z letter becomes its lower-case letter and every other character is kept |
| Text.Split | ghost_server.py:632 | a split always yields at least one part |
| Text.SplitCount | ghost_server.py:632 | a split yields one more part than the separators in the input, and no part contains the separator |
| Text.SplitJoin | ghost_server.py:632 | joining the parts with the separator gives back the input |
| Text.Decimal | ghost_server.py:634 | a decimal spelling is a non-empty string of digits |
| Text.DecimalRoundTrip | ghost_server.py:634 | reading a decimal spelling back gives the number, and it starts with 0 only for zero |
| Text.PyDigits | ghost_server.py:634 | a digit body is accepted exactly when it is digits with single underscores between digits, and its value is that of its digits |
| Text.GoAtoi | main.go:370 | a parsed value always fits in int64 |
| Text.PyIntRoundTrip | ghost_server.py:634 | Python's `int` reads back every integer as `str` prints it |
| Text.GoAtoiRoundTrip | main.go:370 | `strconv.Atoi` reads back every int64 as `strconv.Itoa` prints it |
| Desktop.AllWindows | ghost_server.py:83-86 | exactly the titled, visible windows wider than 100 pixels are kept, none added |
| Desktop.AllWindowsAppend | ghost_server.py:83-86 | the list keeps the enumeration order: one more enumerated window is appended at the end exactly when it is listed, so the list is the in-order filter of the enumeration |
| Desktop.ForegroundWindow | ghost_server.py:88-103 | a window only when Win32 is loaded and the foreground handle has a caption, and then the first window the title search finds for it; some window whenever that search finds any |
| Desktop.ForegroundHwndAndRect | ghost_server.py:105-117 | the foreground handle and its rectangle exactly when Win32 is loaded, the handle names a window and the rectangle is not empty |
| Desktop.SkipRulesAgree | ghost_server.py:184 | testing `skip == title` besides `skip in title` changes nothing: both skip rules agree on every caption |
| Desktop.SkippedMeansContains | ghost_server.py:183-184 | a foreground caption is skipped exactly when it contains "Ghost Shell", "任务栏" or "Program Manager" |
| Desktop.FirstExact | ghost_server.py:169-171 | the first window titled exactly as locked, and none exactly when no window has that title |
| Desktop.FirstContaining | ghost_server.py:173-175 | the first window whose title contains the lock, and none exactly when no title contains it |
| Desktop.GetTargetWindow | ghost_server.py:158-193 | the two search loops and the keyword loop return the window the resolution rule picks: exact match, else partial match under a lock; otherwise the foreground window unless skipped, else the first keyword with a window |
| Desktop.LockedPrefersExact | ghost_server.py:166-175 | under a lock the first exactly titled listed window is chosen even when windows that merely contain the title come earlier |
| Desktop.FirstExactAt | ghost_server.py:169-171 | the exact search returns the first window with the title |
| Desktop.LockedChoice | ghost_server.py:166-177 | under a lock the choice is a listed window whose title contains the lock, and there is none exactly when no listed title contains it |
| Desktop.LockIgnoresForeground | ghost_server.py:166-177 | under a lock the foreground window plays no part: the same window list gives the same target |
| Desktop.AutoFollowsForeground | ghost_server.py:179-185 | without a lock a titled foreground window that is not the own page or a shell window is the target |
| Desktop.AutoNeverFollowsOwnPage | ghost_server.py:179-193 | without a lock the server's own page is never the target; the keyword search decides instead |
| Desktop.NotepadExample | ghost_server.py:166-175 | with "Untitled - Notepad" listed before "Notepad", a lock on "Notepad" picks "Notepad" |
| Common.Clamp | ghost_server.py:403 | the requested frame rate is kept when it lies in 1..60 and otherwise replaced by the nearer bound |
| Geometry.Third | main.go:409-415 | a third rounded down for Python's `//`, rounded toward zero for Go's `/`; both agree on non-negative sizes |
| Geometry.PhoneLayoutShape | ghost_server.py:708-725 | the adapted window touches the work area's right edge; landscape: full height and a third of the width; portrait: as tall as the area is wide, a third of its height wide, on the bottom edge |
| Geometry.PhoneLayoutInside | ghost_server.py:708-725 | the adapted window lies inside the work area exactly when the area is landscape or no more than three times as tall as it is wide |
| Geometry.DivisionsAgree | main.go:402-419 | the Go layout, which claims to match the Python one, gives the same placement for every work area of non-negative size |
| Geometry.PhoneLayoutExample | ghost_server.py:708-725 | a 1920x1040 work area gives a 640x1040 window at x 1280, and a 1080x1880 portrait area a 626x1080 window at (454, 800) |
| Geometry.PyWorkArea | ghost_server.py:690-706 | the work area is the monitor's work rectangle, or the whole primary screen less a 40-pixel taskbar when the monitor query is unavailable |
| LegacyCapture.ReportedEngine | legacy/python_websocket/ghost_server.py:425-434 | never "auto"; an explicit setting is reported as is; "auto" is reported as the duplication engine only when both its library and the colour-conversion library are present |
| LegacyCapture.EngineReportMismatch | legacy/python_websocket/ghost_server.py:336-344 | as written, "auto" with the duplication library but not the colour-conversion library is reported as mss while the capture goes straight to the PIL screen grab |
| LegacyCapture.ReportedEngineIsUsed | legacy/python_websocket/ghost_server.py:425-434 | corrected: with "auto" resolved as reported, the first backend tried is the one the reported engine names |
| LegacyCapture.BlackThreshold | legacy/python_websocket/ghost_server.py:551-561 | the near-black limit is 2 exactly when the caller keeps dark pictures, and 10 otherwise |
| LegacyCapture.GdiShot | legacy/python_websocket/ghost_server.py:473-572 | the background capture keeps a picture of the window's rectangle exactly when Win32 is present, the rectangle is not empty and the brightness reaches the near-black limit |
| LegacyCapture.CaptureWindowBackground | legacy/python_websocket/ghost_server.py:473-572 | nothing without Win32 or with an empty rectangle; the four GDI methods are tried in order, each only after the previous failed; the picture is GdiShot's, kept exactly when the bitmap is not darker than the limit, whatever the methods reported |
| LegacyCapture.DarkWindowThresholds | legacy/python_websocket/ghost_server.py:552-558 | a dark-themed window of brightness 5 survives the locked-mode check but not the default one |
| LegacyCapture.SimpleChain | legacy/python_websocket/ghost_server.py:329-423 | nothing for a missing or empty rectangle; backends are asked in the order duplication, mss, screen grab, each at most once, starting with the engine's backend; every backend before the last failed, and the picture is the last one's exactly when it works; no picture only after the screen grab failed; the camera is created exactly when duplication is the engine and both its libraries are present |
| LegacyCapture.MssSettingChain | legacy/python_websocket/ghost_server.py:103 | under the starting setting mss, a working mss grab gives the picture; a failing one falls back to the screen grab alone, and no camera is created |
| LegacyCapture.LockedChain | legacy/python_websocket/ghost_server.py:921-938 | a graphics-capture picture wins; otherwise the GDI capture with the dark-keeping limit when there is a handle; otherwise simple_capture when there is a handle; there is no picture exactly when every step failed |
| LegacyCapture.AutoChain | legacy/python_websocket/ghost_server.py:962-971 | simple_capture's picture when it has one, otherwise the GDI capture with the default limit; the backends asked and the camera are simple_capture's; there is no picture exactly when both fail |
| LegacyCapture.DarkWindowOnlyWhenLocked | legacy/python_websocket/ghost_server.py:929-971 | a dark window that only the GDI capture sees is streamed under a lock and dropped in auto mode |
| LegacyCapture.Capturer.constructor | legacy/python_websocket/ghost_server.py:58-103 | the engine setting starts as mss and no duplication camera exists |
| LegacyCapture.Capturer.SimpleCapture | legacy/python_websocket/ghost_server.py:329-423 | the picture and the backends asked are SimpleChain's from the engine the setting starts with as written; the camera exists afterwards exactly when it did before or the chain created it; the setting is never rewritten |
| LegacyCapture.Capturer.LockedCapture | legacy/python_websocket/ghost_server.py:921-938 | the picture is LockedChain's, from the engine the setting starts with as written; the camera follows the chain and the setting is never rewritten |
| LegacyCapture.Capturer.AutoCapture | legacy/python_websocket/ghost_server.py:962-971 | the picture is AutoChain's on the foreground rectangle, from the engine the setting starts with as written; the camera follows the chain and the setting is never rewritten |
| Interaction.OuterHandlerAsWritten | legacy/python_websocket/ghost_server.py:1522-1525 | as written, every exception leaving an action, the 400 of an unknown action included, is answered with 500 |
| Interaction.OuterHandler | legacy/python_websocket/ghost_server.py:1522-1525 | corrected: an HTTP exception keeps its own status, and any other exception is a 500 |
| Interaction.UnknownActionStatus | legacy/python_websocket/ghost_server.py:1522-1525 | an unknown action answers 400 through the corrected wrapper and 500 through the one as written |
| Interaction.SafeTextChars | legacy/python_websocket/ghost_server.py:1271 | the pasted text holds only characters of the request, and never a NUL |
| Interaction.SafeTextStable | legacy/python_websocket/ghost_server.py:1271 | the pasted text has no whitespace at either end, and sanitising it again changes nothing |
| Interaction.ParseDrag | legacy/python_websocket/ghost_server.py:1331-1340 | the wrong-parts error happens exactly when the text does not have exactly one comma |
| Interaction.SplitAround | legacy/python_websocket/ghost_server.py:1333 | text before the first separator is the first part, and the rest splits on its own |
| Interaction.SplitNone | legacy/python_websocket/ghost_server.py:1333 | text without a separator is a single part |
| Interaction.DecimalHasNoComma | legacy/python_websocket/ghost_server.py:1333-1335 | a printed integer never contains a comma |
| Interaction.ParseDragRoundTrip | legacy/python_websocket/ghost_server.py:1331-1338 | a delta written "dx,dy" reads back as that delta, for every pair of integers |
| Interaction.ParseSize | legacy/python_websocket/ghost_server.py:1370-1377 | text without a comma never gives a size |
| Interaction.DragAndResizeDiffer | legacy/python_websocket/ghost_server.py:1333-1372 | "1,2,3" is refused by drag but resizes to 1x2, because resize ignores extra parts |
| Interaction.HttpScrollAmount | legacy/python_websocket/ghost_server.py:1303-1316 | `scroll` reads the text as Python's `int` (3 when the text is empty); `scroll_up` and `scroll_down` are 3 and -3 |
| Interaction.OpenAppOps | legacy/python_websocket/ghost_server.py:1317-1330 | Win+S, then the name pasted, then Enter, in that order |
| Interaction.CloseOps | legacy/python_websocket/ghost_server.py:1467-1505 | the target is activated first, and Alt+F4 follows exactly when no other window is known to be active |
| Interaction.KeyOps | legacy/python_websocket/ghost_server.py:1284-1295 | a one-character key is typed and any other key is pressed, each exactly in its case |
| Interaction.HotkeyOps | legacy/python_websocket/ghost_server.py:1296-1300 | one hotkey made of the parts of the key string split at '+', one more part than there are '+' signs |
| LegacyServer.LockTo | legacy/python_websocket/ghost_server.py:616-637 | the empty title unlocks and clears the hard-lock and pending-activation flags; any other title becomes a hard lock with one activation pending |
| LegacyServer.LockCandidate | legacy/python_websocket/ghost_server.py:655-664 | the window lock_current would lock is never the server's own page and is either the current display or the last valid window; the current display wins whenever it is a real window |
| LegacyServer.LockCurrentHttp | legacy/python_websocket/ghost_server.py:639-677 | an existing lock is left alone and reported as already locked; otherwise the candidate becomes a hard lock with no activation pending, or the request fails and nothing changes |
| LegacyServer.LockCurrentWs | legacy/python_websocket/ghost_server.py:755-765 | the WebSocket lock_current locks the same candidate without the already-locked check, and fails without changing the lock when there is none |
| LegacyServer.UnlockAsWritten | legacy/python_websocket/ghost_server.py:767-770 | as written, the WebSocket unlock clears the title and the hard-lock flag but keeps a pending activation |
| LegacyServer.Unlock | legacy/python_websocket/ghost_server.py:767-770 | corrected: the WebSocket unlock leaves the same state as POST /lock with an empty title |
| LegacyServer.AutoRelease | legacy/python_websocket/ghost_server.py:882-894 | a soft lock ends exactly when the Win32 bindings report a foreground window that is real, not the server's page and not the locked one; the flags are untouched and a hard lock never ends |
| LegacyServer.SoftLock | legacy/python_websocket/ghost_server.py:1212-1220 | an interaction on a real window while nothing is locked soft-locks it and makes it both current and last valid; otherwise lock and record are unchanged |
| LegacyServer.Recorded | legacy/python_websocket/ghost_server.py:973-986 | the record changes only while unlocked and only for a real window, which becomes current; when the previous current window is a different real window it moves to last valid and the time is stamped, and otherwise last valid and the time are kept |
| LegacyServer.RecordNeverOwnPage | legacy/python_websocket/ghost_server.py:973-986 | the bookkeeping keeps the tracker consistent: the server's own page never enters the display record |
| LegacyServer.StickyTitle | legacy/python_websocket/ghost_server.py:951-960 | while the foreground is the server's own page and nothing is locked, the current window stands in for it; any other caption is kept |
| LegacyServer.OwnPageKeepsFocus | legacy/python_websocket/ghost_server.py:951-986 | a cycle that looks at the server's own page leaves the display record exactly as it was |
| LegacyServer.RecordedCaption | legacy/python_websocket/ghost_server.py:878-986 | corrected: a cycle that found no window records nothing, and a found window's title is recorded as is |
| LegacyServer.RecordedCaptionAsWritten | legacy/python_websocket/ghost_server.py:877-986 | as written, a cycle that found no window records the placeholder caption "未知" |
| LegacyServer.PlaceholderLockedAsWritten | legacy/python_websocket/ghost_server.py:878-986 | as written, one cycle without a window records the placeholder caption as current, and lock_current then locks that placeholder |
| LegacyServer.NoWindowKeepsRecord | legacy/python_websocket/ghost_server.py:973-986 | with the corrected caption a cycle without a window leaves the display record unchanged |
| LegacyServer.HardLockSurvives | legacy/python_websocket/ghost_server.py:882-894 | a lock made by POST /lock survives every foreground change |
| LegacyServer.SoftLockReleased | legacy/python_websocket/ghost_server.py:882-894 | a soft lock placed by an interaction is released by a switch to any other real window, and by nothing else |
| LegacyServer.LockCurrentNeverOwnPage | legacy/python_websocket/ghost_server.py:639-677 | when lock_current changes the lock, the new lock is hard, has no activation pending and never names the server's own page |
| LegacyServer.UnlockPathsDisagree | legacy/python_websocket/ghost_server.py:767-770 | as written, after POST /lock the WebSocket unlock leaves the activation pending while POST /lock with "" clears it |
| LegacyServer.UnlockPathsAgree | legacy/python_websocket/ghost_server.py:616-623 | the corrected unlock agrees with POST /lock "" on every state and leaves nothing locked or pending |
| LegacyServer.TransitionsKeepConsistent | legacy/python_websocket/ghost_server.py:616-986 | every lock transition keeps a hard lock named and the server's page out of the display record |
| LegacyServer.InteractTarget | legacy/python_websocket/ghost_server.py:1200-1210 | the client's caption is used unless missing or a not-found marker; else the current display; the last valid window is used only within 500 ms of a change |
| LegacyServer.InputWindow | legacy/python_websocket/ghost_server.py:1222-1230 | the first window carrying the title wins; without one the tracker's target window is used |
| LegacyServer.Absolute | legacy/python_websocket/ghost_server.py:1237-1238 | window-relative coordinates are offset by the window's top-left corner |
| LegacyServer.TypeFocus | legacy/python_websocket/ghost_server.py:1255-1267 | typing clicks at the given point when one is given, else at the remembered click when it was in the same window, else makes at most one focus step |
| LegacyServer.TypeClicksOnlyInSameWindow | legacy/python_websocket/ghost_server.py:1259-1267 | without coordinates, typing clicks only at a click remembered in the same window |
| LegacyServer.PasteOps | legacy/python_websocket/ghost_server.py:1271-1283 | the paste is skipped exactly when the text without NULs and outer whitespace is empty, and otherwise pastes that text |
| LegacyServer.ParseAction | legacy/python_websocket/ghost_server.py:1248-1523 | every recognised action is the one whose name the client sent |
| LegacyServer.ParseActionName | legacy/python_websocket/ghost_server.py:1248-1523 | every known action is reached by its own name: no branch of the chain is shadowed |
| LegacyServer.HttpAction | legacy/python_websocket/ghost_server.py:1248-1525 | only click, and type with coordinates, change the remembered click; only adapt and restore change the saved geometry; an unknown action answers 500 and sends nothing |
| LegacyServer.HttpType | legacy/python_websocket/ghost_server.py:1255-1283 | type remembers a click exactly when coordinates are given and never changes the saved geometry |
| LegacyServer.HttpScroll | legacy/python_websocket/ghost_server.py:1303-1308 | scroll changes neither the remembered click nor the saved geometry |
| LegacyServer.HttpResize | legacy/python_websocket/ghost_server.py:1361-1377 | resize_window changes neither the remembered click nor the saved geometry |
| LegacyServer.HttpAdapt | legacy/python_websocket/ghost_server.py:1378-1447 | adapt_phone leaves the remembered click alone |
| LegacyServer.HttpRestore | legacy/python_websocket/ghost_server.py:1448-1466 | restore_window leaves the remembered click alone |
| LegacyServer.HttpClose | legacy/python_websocket/ghost_server.py:1467-1509 | close_window changes neither the remembered click nor the saved geometry |
| LegacyServer.HttpDrag | legacy/python_websocket/ghost_server.py:1331-1340 | drag changes neither the remembered click nor the saved geometry |
| LegacyServer.ClickIsRemembered | legacy/python_websocket/ghost_server.py:1249-1254 | a click goes to the window-relative point and is remembered with the window's title |
| LegacyServer.TypePastesSafeText | legacy/python_websocket/ghost_server.py:1255-1283 | type pastes exactly the sanitised text as its last input, after at most one focus step, and answers "empty" exactly when nothing is left |
| LegacyServer.DragDispatch | legacy/python_websocket/ghost_server.py:1331-1340 | the drag action is the drag branch on the parsed text from the request's point |
| LegacyServer.DragFollowsText | legacy/python_websocket/ghost_server.py:1331-1337 | a delta written as "dx,dy" is dragged as exactly that delta, from the request's point |
| LegacyServer.DragRefusesOtherShapes | legacy/python_websocket/ghost_server.py:1338-1340 | a text without exactly one comma is refused and sends no input |
| LegacyServer.CloseIsGuarded | legacy/python_websocket/ghost_server.py:1467-1509 | Alt+F4 is sent exactly when a target was found and no other window is known to be active |
| LegacyServer.AdaptThenRestore | legacy/python_websocket/ghost_server.py:1378-1466 | adapt_phone then restore_window on the same target moves and resizes it back to its saved geometry and forgets the save |
| LegacyServer.AdaptStaysInLandscapeArea | legacy/python_websocket/ghost_server.py:1378-1447 | in a landscape work area the phone placement spans the full height and ends at the right edge, inside the area |
| LegacyServer.UnknownActionIs500 | legacy/python_websocket/ghost_server.py:1522-1525 | an unknown action is answered with 500, not with the 400 the handler raises, and sends no input |
| LegacyServer.CommandType | legacy/python_websocket/ghost_server.py:753 | a command's type is its type key, else its action key, else empty |
| LegacyServer.CommandAction | legacy/python_websocket/ghost_server.py:773 | a command's action is its action key, else its type |
| LegacyServer.WsScrollAmount | legacy/python_websocket/ghost_server.py:840-844 | over the WebSocket a scroll text is read as the amount whatever the direction; without one the amount is -3 for scroll_down and 3 otherwise |
| LegacyServer.ScrollReadingsDiffer | legacy/python_websocket/ghost_server.py:840-844 | the two handlers read scroll_up with a text differently: HTTP ignores the text and the WebSocket obeys it |
| LegacyServer.WsTargetTitle | legacy/python_websocket/ghost_server.py:780 | a WebSocket input aims at the lock, else the current display, else the last valid window |
| LegacyServer.WsAction | legacy/python_websocket/ghost_server.py:792-866 | a WebSocket input never touches the saved geometry and changes the remembered click only on click |
| LegacyServer.ProcessCommandSpec | legacy/python_websocket/ghost_server.py:748-866 | a command never changes the display record; only lock_current and unlock change the lock; lock_current locks the candidate as a hard lock or fails and keeps the lock; unlock drops the lock but keeps a pending activation, as written; an input without a window sends nothing and changes nothing; any input sent starts by activating the target |
| LegacyServer.DrainSpec | legacy/python_websocket/ghost_server.py:1012-1021 | draining answers every queued command once, in order, and keeps the display record |
| LegacyServer.DrainSpecAppend | legacy/python_websocket/ghost_server.py:1012-1021 | draining a queue with one more command is draining the queue, then processing that command |
| LegacyServer.DrainKeepsConsistent | legacy/python_websocket/ghost_server.py:1012-1021 | draining any queue keeps the tracker consistent |
| LegacyServer.WaitMs | legacy/python_websocket/ghost_server.py:1024-1027 | the wait is never negative and tops a short cycle up to exactly 33 ms |
| LegacyServer.BackgroundKey | legacy/python_websocket/ghost_server.py:1127-1178 | without the Win32 bindings nothing is posted; a named key (any case) posts key-down and/or key-up of its code as the action asks; any other key posts one character message per character, in order |
| LegacyServer.CycleCaption | legacy/python_websocket/ghost_server.py:897-960 | under a lock a caption exists exactly when the locked window is found; unlocked, exactly when there is a foreground window |
| LegacyServer.MetaCaption | legacy/python_websocket/ghost_server.py:998 | the metadata caption is the title cut to 50 characters, or the placeholder for none |
| LegacyServer.Answers | legacy/python_websocket/ghost_server.py:1012-1018 | every reply is sent as one message, in order |
| LegacyServer.CycleShot | legacy/python_websocket/ghost_server.py:896-971 | no picture when the lock does not resolve or, unlocked, without a foreground window; an unlocked picture covers the foreground rectangle; a picture always comes with a caption |
| LegacyServer.CycleMessages | legacy/python_websocket/ghost_server.py:988-1009 | a picture is sent as metadata (its size, the caption cut to 50 characters, the lock and its flag) then the frame; without one "searching" is sent exactly when nothing is locked and there is no foreground window, and otherwise nothing |
| LegacyServer.ShowStep | legacy/python_websocket/ghost_server.py:872-1009 | a pass keeps the click, releases a soft lock as AutoRelease says, activates a pending locked window at most once, keeps the tracker consistent, leaves the record alone under a lock, and sends a frame exactly when CycleShot has a picture |
| LegacyServer.UnlockedStreamsForeground | legacy/python_websocket/ghost_server.py:943-1004 | unlocked, with a working mss grab under the starting setting, the frame is the mss grab of the foreground rectangle and the metadata carries its size |
| LegacyServer.LockedStreamsGraphicsCapture | legacy/python_websocket/ghost_server.py:921-938 | a resolved lock with a graphics-capture picture streams that picture and creates no camera |
| LegacyServer.NoWindowRecordsPlaceholder | legacy/python_websocket/ghost_server.py:875-1006 | as written, a cycle with no foreground window sends "searching", records the placeholder as the window shown, and lock_current then locks the placeholder |
| LegacyServer.AnswersAppend | legacy/python_websocket/ghost_server.py:1012-1018 | one more reply adds one message at the end |
| LegacyServer.LegacyServer.constructor | legacy/python_websocket/ghost_server.py:179-195 | the server starts unlocked with an empty record, no click, no saved geometry and 5 frames per second |
| LegacyServer.LegacyServer.LockWindow | legacy/python_websocket/ghost_server.py:616-637 | POST /lock updates the lock as LockTo describes and keeps the tracker consistent |
| LegacyServer.LegacyServer.LockCurrentWindow | legacy/python_websocket/ghost_server.py:639-677 | POST /lock_current updates the lock as LockCurrentHttp describes and keeps the tracker consistent |
| LegacyServer.LegacyServer.SetFps | legacy/python_websocket/ghost_server.py:680-687 | the rate set and reported is the request clamped to 1..60 |
| LegacyServer.LegacyServer.ReleaseSoftLock | legacy/python_websocket/ghost_server.py:882-894 | the lock after the check is AutoRelease of the lock before it |
| LegacyServer.LegacyServer.RecordDisplay | legacy/python_websocket/ghost_server.py:973-986 | the display record after the cycle is Recorded of the record before it |
| LegacyServer.LegacyServer.ChooseTarget | legacy/python_websocket/ghost_server.py:1200-1210 | the title chosen is InteractTarget of the request and the record |
| LegacyServer.LegacyServer.PlaceSoftLock | legacy/python_websocket/ghost_server.py:1212-1220 | lock and record after the call are SoftLock of those before it |
| LegacyServer.LegacyServer.FindInputWindow | legacy/python_websocket/ghost_server.py:1222-1230 | the window found is InputWindow of the title and the current lock |
| LegacyServer.LegacyServer.Interact | legacy/python_websocket/ghost_server.py:1193-1525 | POST /interact soft-locks the chosen target; without a window it answers 404, sends nothing and keeps click and saved geometry; otherwise it activates the window and then reply, input, click and saved geometry are those of HttpAction |
| LegacyServer.LegacyServer.CaptureTarget | legacy/python_websocket/ghost_server.py:896-971 | the caption is CycleCaption; a found locked window is activated once if pending and the pending flag cleared; the picture is CycleShot's, the camera follows the chain, and the engine setting is unchanged |
| LegacyServer.LegacyServer.ProcessCommand | legacy/python_websocket/ghost_server.py:748-866 | state, reply and input are exactly ProcessCommandSpec of the state before the command |
| LegacyServer.LegacyStream.constructor | legacy/python_websocket/ghost_server.py:723-732 | a stream starts with an empty queue and nothing sent |
| LegacyServer.LegacyStream.Receive | legacy/python_websocket/ghost_server.py:734-746 | a received command joins the end of the queue |
| LegacyServer.DrainStep | legacy/python_websocket/ghost_server.py:1012-1020 | draining one more command extends the session by that command's outcome and appends its reply after the earlier ones |
| LegacyServer.LegacyStream.DrainOne | legacy/python_websocket/ghost_server.py:1012-1016 | handling the head of the queue removes it, and the session and the replies sent move on exactly as draining one more command does; the recorded display and the configuration stay as they were |
| LegacyServer.LegacyStream.Drain | legacy/python_websocket/ghost_server.py:1012-1021 | the queue is emptied, the state is DrainSpec of the state and queue before, and each reply is sent in order after what was sent |
| LegacyServer.LegacyStream.Track | legacy/python_websocket/ghost_server.py:882-986 | the new lock, display record and activation are those of ShowStep; caption and picture are CycleCaption and CycleShot of the released lock; the camera follows the chain; saved geometry, rate and engine setting are unchanged |
| LegacyServer.LegacyStream.Show | legacy/python_websocket/ghost_server.py:872-1009 | the new session, activation and messages are those of ShowStep, the messages are appended to what was sent, and the queue is untouched |
| LegacyServer.LegacyStream.Cycle | legacy/python_websocket/ghost_server.py:872-1027 | the session after the cycle is DrainSpec of ShowStep's session and the queue; what was sent grows by ShowStep's messages then one answer per command; the queue is emptied and the wait is WaitMs |
| EarlyServer.LockTo | ghost_server.py:345-364 | the empty title unlocks and drops the pending activation; any other title becomes the lock with one activation pending |
| EarlyServer.LockAgreesWithLegacy | ghost_server.py:345-364 | the later server's `/lock` leaves the same title and pending activation and gives the same reply, and marks the lock manual exactly when a title is given |
| EarlyServer.LockCurrent | ghost_server.py:366-394 | an existing lock is reported unchanged; otherwise the window the search picks now is locked without an activation, and with no such window nothing changes and an error is returned |
| EarlyServer.LockCurrentWhileOwnPageFocused | ghost_server.py:380-392 | while the server's own page has the focus, `lock_current` locks the first keyword window, not what the stream shows |
| EarlyServer.LockCurrentTakesForeground | ghost_server.py:380-392 | unlocked with a followable foreground window, `lock_current` locks exactly that window |
| EarlyServer.FpsDelay | ghost_server.py:399-406 | the rate is clamped to 1..60 and the delay is its reciprocal, between 1/60 s and 1 s |
| EarlyServer.SleepTime | ghost_server.py:538-542 | the stream sleeps only when the cycle took less than the frame delay, and then exactly for the rest of it |
| EarlyServer.AutoSkippedAsSearch | ghost_server.py:494-495 | the stream's skip rule (containment only) skips exactly the captions the window search's rule (equality or containment) skips |
| EarlyServer.Grab | ghost_server.py:146-156 | a screen grab of the rectangle exactly when the rectangle is non-empty and the grab works |
| EarlyServer.CycleCaption | ghost_server.py:454-515 | locked: the caption of the resolved locked window; unlocked: the foreground caption when there is a foreground rectangle and the caption is not skipped (no keyword fallback) |
| EarlyServer.EarlyChain | ghost_server.py:478-508 | no picture without a handle; with Win32 the GDI picture (default near-black limit) when it is kept, else the screen grab of the rectangle; a picture always covers a non-empty rectangle |
| EarlyServer.CycleShot | ghost_server.py:454-511 | a picture only when the cycle has a caption; the locked window (its handle looked up by title when it has none) or, unlocked, a followable foreground window, whose rectangle the picture covers |
| EarlyServer.CycleMsg | ghost_server.py:516-536 | a frame exactly when CycleShot has a picture, carrying it and the caption cut to 50 characters; otherwise the error message |
| EarlyServer.ForegroundFallsBackToGrab | ghost_server.py:496-508 | a followable foreground window whose GDI capture is too dark is streamed from a working screen grab |
| EarlyServer.SkippedForegroundNotStreamed | ghost_server.py:493-495 | a skipped foreground caption is never streamed: the cycle sends the error message |
| EarlyServer.CaptureChain | ghost_server.py:478-508 | the picture is EarlyChain's |
| EarlyServer.ParseAction | ghost_server.py:575-798 | only this server's fifteen action names are recognised, each by its own name |
| EarlyServer.ActivateWindow | ghost_server.py:195-208 | with activation switched off nothing happens and success is reported; otherwise the window is activated, and a raise reports failure |
| EarlyServer.ActivationSwitchedOff | ghost_server.py:59 | with the file's setting, activation sends nothing and always reports success |
| EarlyServer.TypeOps | ghost_server.py:579-594 | the text is pasted; the point is clicked first unless both coordinates are 0 |
| EarlyServer.CloseWindow | ghost_server.py:754-796 | Alt+F4 is the only input ever sent, and it is sent exactly when there is a target and no other window is active |
| EarlyServer.Action | ghost_server.py:575-800 | only adapt_phone and restore_window change the saved geometry; an unknown action answers 500, since the 400 it raises is caught by the outer handler, and sends no input |
| EarlyServer.TypeAtOriginOnlyPastes | ghost_server.py:581-586 | `type` at (0, 0) only pastes the text, with no click |
| EarlyServer.DragNeedsTwoParts | ghost_server.py:630-639 | a drag whose text does not split into exactly two parts is refused with no input |
| EarlyServer.DragByText | ghost_server.py:630-637 | a drag written "dx,dy" moves to the point and drags by exactly that delta |
| EarlyServer.CloseNeverActivates | ghost_server.py:754-792 | closing never activates a window, and Alt+F4 goes out exactly when there is a target and no other window is active |
| EarlyServer.AdaptThenRestore | ghost_server.py:665-753 | adapt_phone then restore_window on the same window moves and resizes it back to its geometry before the adaptation and forgets the saved geometry |
| EarlyServer.Server.constructor | ghost_server.py:62-71 | unlocked, nothing pending or displayed, a 0.2 s frame delay and no saved geometry |
| EarlyServer.Server.LockWindow | ghost_server.py:345-364 | the new lock and the reply are those of the lock step |
| EarlyServer.Server.LockCurrentWindow | ghost_server.py:366-394 | the new lock and the reply are those of the lock-current step |
| EarlyServer.Server.SetFps | ghost_server.py:399-406 | the reported rate and delay are the clamped rate and its reciprocal, and the delay is stored |
| EarlyServer.Server.StreamCycle | ghost_server.py:442-542 | a pending activation is spent, with one activation, exactly when the lock resolves; the message is CycleMsg; the caption of a frame sent becomes the display record, which is otherwise kept; the sleep is SleepTime |
| EarlyServer.Server.Interact | ghost_server.py:546-800 | no window found gives 404 with no input; otherwise the window last displayed (else the search's target) receives the action, whose reply, input and saved geometry are those of the action step |
| GoInput.KeyEvent | input.go:64-71 | a key record carries the given virtual key and flags and no scan code |
| GoInput.WithUnicode | input.go:79 | the Unicode flag is set and every other bit of the flags is kept |
| GoInput.UnicodeEvent | input.go:73-81 | a Unicode record has no virtual key, the code unit as its scan code and the Unicode flag added to the given flags |
| GoInput.Sent | input.go:83-92 | an empty batch makes no call; any other batch is handed to SendInput once, whole |
| GoInput.NamedKey | input.go:217-238 | a named key has a non-zero code outside the letter and digit range, no named spelling contains '+', and no single character other than space is a named key |
| GoInput.MapKeyToVk | input.go:215-254 | a named key gets its code; a single letter gets its upper-case code and a single digit its own; every other key gets 0 |
| GoInput.LettersIgnoreCase | input.go:241-248 | a lower-case letter and its capital map to the same non-zero code |
| GoInput.NamedSpellings | input.go:218-231 | the listed spellings of Enter, Escape and ArrowUp map to 0x0D, 0x1B and 0x26 |
| GoInput.CodesTellKeyKinds | input.go:215-254 | a non-zero code comes from a named key exactly when it lies outside 0x30..0x5A |
| GoInput.CombinationsUnmapped | input.go:215-254 | a key of more than one character that contains '+' maps to 0, so it sends nothing |
| GoInput.Utf16Units | input.go:150 | a character below 0x10000 is one code unit; any other is a high and a low surrogate that encode it (RFC 2781 section 2.1) |
| GoInput.Utf16 | input.go:150 | a text has at least as many code units as characters |
| GoInput.Utf16RoundTrip | input.go:150 | decoding the code units typed for a text gives the text back |
| GoInput.TypingInputs | input.go:152-158 | typing makes two records per code unit |
| GoInput.TypingInputsAt | input.go:153-158 | the k-th code unit is pressed by record 2k and released by record 2k+1 |
| GoInput.TypingInputsAppend | input.go:153-158 | one more code unit adds its press and release at the end |
| GoInput.CharacterInputs | input.go:148-160 | a character beyond the Basic Multilingual Plane is typed with four records, any other with two |
| GoInput.ClickCalls | input.go:98-133 | a click always moves the cursor first; a left, right or middle button then gets one down/up pair of its own flags; any other button only moves |
| GoInput.WheelData | input.go:141 | the wheel amount is the delta in 32-bit two's complement |
| GoInput.KeyCalls | input.go:162-173 | an unknown key sends nothing; a known one sends exactly its down and up |
| GoInput.HotkeyInputs | input.go:176-184 | a combination is modifier down, key down, key up, modifier up |
| GoInput.HotkeyCalls | main.go:383-385 | corrected: "modifier+key" with a known modifier and a mapped key presses the combination; a key without exactly one '+' is pressed as simulateKey presses it |
| GoInput.SplitPlus | main.go:383-385 | a key splits into a modifier and a key exactly when it has one '+' |
| GoInput.CtrlC | main.go:383-385 | as written, the hotkey action sends nothing for "ctrl+c"; the corrected form sends Ctrl down, C down, C up, Ctrl up |
| GoInput.Injector.constructor | input.go:12-16 | no call has been made yet |
| GoInput.Injector.Send | input.go:83-92 | the calls made grow by what Sent describes |
| GoInput.Injector.MoveMouse | input.go:94-96 | one SetCursorPos call to the point |
| GoInput.Injector.ClickMouse | input.go:98-133 | the calls made grow by ClickCalls |
| GoInput.Injector.ScrollMouse | input.go:135-145 | one wheel record carrying the delta in two's complement |
| GoInput.Injector.SimulateText | input.go:148-160 | the calls made grow by one batch of TypingInputs of the text's code units, or nothing for an empty text |
| GoInput.Injector.SimulateKey | input.go:162-173 | the calls made grow by KeyCalls |
| GoInput.Injector.SimulateHotkey | input.go:176-184 | one batch of the four records of the combination |
| GoInput.Injector.SimulateKeyVk | input.go:187-193 | one batch of the key's down and up |
| GoWindow.Sub32 | window.go:58-59 | an int32 difference is exact when it fits and otherwise wraps around modulo 2^32 |
| GoWindow.Chars | window.go:107 | the bytes become as many characters |
| GoWindow.CharsCons | window.go:107 | a byte in front becomes a character in front |
| GoWindow.Pow10 | window.go:152 | every power of ten is at least 1 |
| GoWindow.Pow10Twenty | window.go:152 | twenty digits, the size of the buffer, hold every 64-bit integer |
| GoWindow.ItoaStep | window.go:154-158 | one pass of the loop writes the last digit of the number in front of what is already written, leaving the spelling of the quotient still to write, and the quotient fits one digit fewer |
| GoWindow.Itoa | window.go:148-160 | a non-negative number is written as its decimal spelling in at most 20 bytes; a negative one gives no digits |
| GoWindow.ItoaReadsBack | window.go:148-160 | reading back what itoa writes with strconv.Atoi gives the number |
| GoWindow.Listed | window.go:91-116 | the window list never has more entries than there are windows |
| GoWindow.ListedAppend | window.go:93-113 | enumerating one more window appends its entry exactly when it passes the filter |
| GoWindow.ListedExactly | window.go:94-109 | every entry comes from a visible, titled, non-desktop window larger than 10x10, and every such window has an entry |
| GoWindow.SizeReadsBack | window.go:107 | the size string splits at its 'x' into the width and the height, each of which reads back as a number |
| GoWindow.SplitAfter | window.go:107 | two parts free of the separator joined by it split back into those two parts |
| GoWindow.MonitorWorkArea | window.go:49-67 | the monitor's work area when it is known, with int32 width and height; otherwise the whole primary screen |
| GoWindow.FallbackKeepsTaskbarRow | window.go:63-66 | without monitor information the Go server's work area is 40 pixels taller than the Python servers' |
| GoWindow.VisualBounds | window.go:162-179 | the compositor's frame bounds when it answers, else the window rectangle |
| GoWindow.ActivationCalls | window.go:129-145 | activation brings the window to the front and then restores it; exactly when it belongs to another thread, the calls are bracketed by attaching and detaching the input |
| GoWindow.WindowManager.constructor | window.go:89 | the window list starts empty and no call has been made |
| GoWindow.WindowManager.EnumWindows | window.go:91-116 | the list returned and kept is Listed of the windows in enumeration order |
| GoWindow.WindowManager.ActivateWindow | window.go:129-145 | the calls made grow by ActivationCalls |
| GoWindow.WindowManager.ResizeWindow | window.go:69-72 | one SetWindowPos with the new size that keeps position and z-order and does not activate |
| GoWindow.WindowManager.MoveAndResizeWindow | window.go:74-77 | one SetWindowPos with the new position and size that keeps the z-order and does not activate |
| GoFrames.GrabRegion | main.go:995-1022 | a non-degenerate target is grabbed at its corner with its int32 size; otherwise the virtual screen, or the primary screen at the origin when the virtual screen reports no size |
| GoFrames.WindowRegion | main.go:1011-1015 | a window rectangle whose size fits in int32 is grabbed at its own corner with a positive size that spans exactly that rectangle |
| GoFrames.ToRgba | main.go:1071-1078 | the conversion keeps the length and gives each byte as the red/blue swap with opaque alpha describes |
| GoFrames.ToRgbaKeepsColours | main.go:1073-1078 | every pixel keeps its green, has red and blue swapped back into RGBA order, and is opaque |
| GoFrames.CaptureScreen | main.go:994-1081 | picture and origin are Captured's |
| GoFrames.Captured | main.go:994-1081 | a picture exactly when the grab region has positive size and the bitmap reads; it has the region's size, the RGBA conversion of the bitmap's bytes, and the region's corner as origin; otherwise nothing at the origin |
| GoFrames.ConvertToRgba | main.go:1071-1078 | the loop, four bytes at a time, produces exactly ToRgba of the bitmap |
| GoFrames.SampledDiffsBetween | main.go:1128-1136 | the bytes between two samples add nothing to the count of differing samples |
| GoFrames.SampledDiffsGrow | main.go:1128-1136 | the count of differing samples never shrinks as more bytes are examined |
| GoFrames.FramesAreSimilar | main.go:1107-1138 | the early-exit loop answers exactly Similar: same bounds and length, and equal bytes or at most half a percent of the samples differing |
| GoFrames.SameFrameIsSimilar | main.go:1115-1118 | a frame is similar to itself, so an unchanged screen is not sent again |
| GoFrames.UnsampledChangesUnseen | main.go:1120-1136 | frames that differ only between sampled offsets are judged similar |
| GoFrames.NoSampledDiffs | main.go:1128-1136 | when every sampled byte agrees, no sample counts as differing |
| GoFrames.SmallFramesShowEveryChange | main.go:1126-1134 | below 6400 bytes the tolerance is zero: one differing sample makes the frames different |
| GoFrames.BufWriter.constructor | main.go:1084-1085 | the encoder's buffer starts empty |
| GoFrames.BufWriter.Write | main.go:1094-1097 | each write is appended whole and reported as fully written without error |
| GoServer.FirstTitled | main.go:227-240 | the window found is listed and carries exactly the title; none is found exactly when no listed window carries it |
| GoServer.LockOutcome | main.go:195-263 | an empty title unlocks; a listed title locks its first window; an unlisted one reverts to following the foreground with an error; the answer reports auto-follow exactly when nothing was locked |
| GoServer.LockTakesFirstExact | main.go:227-240 | when the k-th window is the first with the title, locking the title locks the k-th window's handle |
| GoServer.FirstTitledAt | main.go:227-240 | the first window with the title is found, not a later one |
| GoServer.ScrollDelta | main.go:366-373 | the scroll amount is the delta when non-zero, else the text read as an integer, else 0 |
| GoServer.CommandName | main.go:737-740 | the stream dispatches on the command's type when it is set, else on its action |
| GoServer.InputCalls | main.go:357-385 | each input command makes exactly its calls at the given point: move, click (left for an empty button over HTTP), a scroll only when the amount is non-zero, key, type and text, and the HTTP hotkey as the key mapping of the whole text; no other name is input |
| GoServer.EmptyButtonClicks | main.go:361-365 | an HTTP click without a button is a left click, while the same command on the stream only moves the pointer |
| GoServer.HotkeyCtrlCAsWritten | main.go:383-385 | as written, the HTTP hotkey "ctrl+c" makes no call at all, while the combination form presses Ctrl and C |
| GoServer.ScrollByText | main.go:366-376 | a scroll text "5" with no delta scrolls by 5, and a text that is no number scrolls nothing |
| GoServer.SendCommandInput | main.go:357-385 | the calls made are exactly those InputCalls describes, and nothing is sent for another name |
| GoServer.SaveOriginal | main.go:394-400 | adapting saves a window's rectangle only when none is saved for it, and leaves every other saved rectangle alone |
| GoServer.SaveKeepsFirst | main.go:394-400 | adapting a second time never overwrites the first saved rectangle |
| GoServer.RestoreGivesFirst | main.go:394-400 | after any number of adapts the saved rectangle is the one from before the first, and forgetting it gives back the earlier saves |
| GoServer.AdaptStep | main.go:386-429 | adapt_phone saves the rectangle once and makes one SetWindowPos of the window, without z-order change or activation; the answer carries the new size |
| GoServer.RestoreStep | main.go:430-463 | restore_window forgets the saved rectangle and puts it back, or resizes to 1280x720 in place when none was saved; the answer says which |
| GoServer.AdaptThenRestoreGo | main.go:386-463 | adapting twice then restoring puts the window back at its rectangle from before the first adaptation and leaves the saved rectangles as they were |
| GoServer.ManagedHwnd | main.go:388-392 | the locked handle when there is one, else the foreground window |
| GoServer.AdaptPlacement | main.go:402-419 | for a work area of non-negative size, Go's truncating division gives the same phone placement as floor division |
| GoServer.AfterTimeout | main.go:664-676 | a timed-out write grows a delay under 200 ms by half (staying under 300 ms) and lowers a quality above 30 by 10 |
| GoServer.AfterSuccess | main.go:681-691 | a delivered frame shrinks a delay above 40 ms by 5% (never below 38 ms) and raises a quality under 60 by one |
| GoServer.AdaptationKeepsRange | main.go:664-691 | both adaptations keep the delay within one second and the quality between 21 and 60 |
| GoServer.AdaptationKeepsRangeIf | main.go:664-691 | from any delay and quality in range, both adaptations stay in range |
| GoServer.SuccessesRestoreQuality | main.go:687-689 | enough delivered frames in a row bring the quality back to 60 |
| GoServer.CycleSleep | main.go:701-714 | the loop sleeps out the rest of the frame interval, or 2 ms when the cycle overran it; the sleep is always positive |
| GoServer.FpsDelay | main.go:764-769 | a positive rate sets the delay to one second divided by the rate (rounded down); any other rate keeps the delay |
| GoServer.CaptureHwnd | main.go:604-617 | the stream captures the foreground window when following it and the locked handle when locked |
| GoServer.CaptureRect | main.go:619-625 | with a locked handle the grab is its visual bounds; else the captured window's rectangle; else the empty rectangle, meaning the whole screen |
| GoServer.InteractOffset | main.go:334-354 | HTTP input is offset by the corner of the locked window, else of the foreground window, else not at all |
| GoServer.LockedIgnoresForeground | main.go:604-625 | while a handle is locked, which window has the focus changes neither the captured handle nor the grabbed rectangle |
| GoServer.InteractStep | main.go:316-468 | an input action makes its calls at the offset point and answers "ok" without window calls; adapt and restore are AdaptStep and RestoreStep on the managed window, or a plain "ok" without one; any other action answers "ok" and changes nothing |
| GoServer.ReadStep | main.go:719-900 | an input command makes its calls and nothing else; only set_mode changes the video flag, only fps the delay, only lock_current and unlock the lock; adapt and restore act on the managed window and answer "no window" without one; the quality is never changed |
| GoServer.CommandStep | main.go:764-900 | the stream-only commands send no input and at most one reply |
| GoServer.ReadStepEffects | main.go:764-900 | fps sets the delay to FpsDelay, set_mode sets the video flag, and adapt and restore save or forget the managed window's rectangle, each without any other reply |
| GoServer.StreamAndHttpWindowCommandsAgree | main.go:386-463 | adapt_phone and restore_window over the stream make the same calls and saves as over HTTP; only the answer without a window differs |
| GoServer.LockThenUnlock | main.go:780-814 | lock_current then unlock over the stream returns to following the foreground and changes nothing else |
| GoServer.WriteStep | main.go:577-716 | with video off only a 200 ms wait; otherwise the grab's corner is the offset, a frame is sent and counted only when it differs from the last kept, the pacing adapts to the write outcome and stays in range, and a broken connection stops the loop |
| GoServer.Server.constructor | main.go:79-90 | the server starts following the foreground at 40 ms per frame and quality 60, with nothing saved |
| GoServer.Server.Lock | main.go:195-263 | mode, handle and answer are LockOutcome of the fresh window list; the window locked is brought to the front; an empty title neither enumerates nor activates |
| GoServer.Server.LockCurrent | main.go:266-301 | the foreground window is locked with its title, or nothing changes and the answer says there is nothing to lock |
| GoServer.Server.Unlock | main.go:804-814 | the stream's unlock returns to following the foreground |
| GoServer.Server.ManagedWindow | main.go:388-392 | adapt and restore act on the locked handle, else on the foreground window |
| GoServer.Server.AdaptPhone | main.go:386-429 | saved rectangles, window calls and answer are AdaptStep's: the rectangle is saved once and the window moved to the phone placement of its monitor's work area, answering the new size |
| GoServer.Server.RestoreWindow | main.go:430-463 | saved rectangles, window calls and answer are RestoreStep's: a saved rectangle is put back and forgotten, else the window is resized to 1280x720 in place |
| GoServer.Server.Interact | main.go:316-468 | input calls, window calls, saved rectangles and answer are InteractStep's of the state before |
| GoServer.Server.AfterWrite | main.go:662-691 | the pacing after a write is AfterSuccess for a delivered frame, AfterTimeout for a timeout, and unchanged for a broken connection |
| GoServer.Server.SetFps | main.go:764-769 | the delay becomes FpsDelay of the requested rate |
| GoServer.Launch | main.go:471-530 | the answer names the app; Win+S is pressed, then, if the clipboard takes the name, Ctrl+V and Enter |
| GoServer.Stream.constructor | main.go:556-566 | a connection starts with video on, no offset, no last frame and nothing sent |
| GoServer.Stream.Grab | main.go:604-628 | picture and offset are Captured's for the rectangle of the captured window |
| GoServer.Stream.SkipSimilar | main.go:630-642 | a grab similar to the last frame kept is dropped and the last frame kept; any other grab is sent and becomes the last frame |
| GoServer.Stream.SendFrame | main.go:651-699 | only a delivered write sends the encoded frame; the pacing adapts as AfterWrite says; the loop stops exactly when the connection broke |
| GoServer.Stream.WriteCycle | main.go:577-716 | offsets, last frame, bytes written, counters, delay and quality after the pass, the sleep and the stop flag are exactly WriteStep's of the state before |
| GoServer.Stream.ReadCommand | main.go:719-900 | shared state, video flag, replies, input calls and window calls are ReadStep's of the state before, at the command's point plus the last grab's offset; fps, set_mode, lock_current, unlock, adapt_phone and restore_window change exactly their state and answer as the handlers do |
| GoServer.Stream.StreamCommand | main.go:764-900 | shared state, video flag, replies and window calls are CommandStep's of the state before |
| GoAudio.CoInitializeError | audio.go:42-48 | COM start-up succeeds exactly for S_OK and S_FALSE; any other code is the error returned |
| GoAudio.ReadMixFormat | audio.go:133-164 | an unreported depth counts as 32 bits; samples are floats exactly for the float tag, or the extensible tag with a sub-format other than PCM |
| GoAudio.OtherTagsAreIntegers | audio.go:139-145 | every tag other than float and extensible gives integer samples, whatever the sub-format field holds |
| GoAudio.Int16Le | audio.go:302-306 | a 16-bit sample lies in [-32768, 32768), agrees with its two bytes modulo 2^16 and is negative exactly when the high byte's top bit is set |
| GoAudio.Int24Le | audio.go:308-317 | a 24-bit sample is sign-extended from bit 23: it lies in [-2^23, 2^23), agrees with its three bytes modulo 2^24 and is negative exactly when bit 23 is set |
| GoAudio.Int32Le | audio.go:294-300 | a 32-bit integer sample lies in the int32 range, agrees with its four bytes modulo 2^32 and takes its sign from the top bit |
| GoAudio.Int24ExtendsInt16 | audio.go:302-317 | a 24-bit sample with a zero low byte is 256 times the 16-bit sample of its upper bytes, so both depths scale to the same level |
| GoAudio.SampleAt | audio.go:286-317 | every integer sample lies within the full-scale value it is divided by |
| GoAudio.PcmValues | audio.go:283-317 | a packet holds one sample per whole sample width, each read at its own offset; trailing bytes are ignored |
| GoAudio.DecodeSamples | audio.go:283-318 | decoding fails exactly for depths under 8 bits (a division by zero); otherwise it yields as many samples as whole sample widths fit, integer samples only for non-float 32-bit, 16-bit and 24-bit data, each within full scale |
| GoAudio.DecodeIntegers | audio.go:286-317 | the sample loops fill a new slice with exactly PcmValues |
| GoAudio.DecodePacket | audio.go:283-318 | step 1 of the packet pipeline gives exactly DecodeSamples |
| GoAudio.Channel | audio.go:353-361 | a channel has one sample per whole frame |
| GoAudio.Interleave | audio.go:353-371 | interleaving two channels gives twice as many samples as one channel holds |
| GoAudio.InterleaveAt | audio.go:353-371 | in the interleaving, index 2i holds left sample i and index 2i+1 right sample i |
| GoAudio.ChannelAt | audio.go:353-361 | sample i of channel c is value c of frame i |
| GoAudio.InterleaveSplits | audio.go:353-371 | interleaved stereo splits back into exactly its two channels |
| GoAudio.DownmixFrames | audio.go:353-361 | the downmix writes samples 0 and 1 of frame i at indices 2i and 2i+1 |
| GoAudio.Remix | audio.go:352-371 | the remix loops give exactly the stereo remix: the front pair of more than two channels, mono twice, anything else unchanged |
| GoAudio.InterleaveByPairs | audio.go:353-371 | a slice filled pair by pair from two channels is their interleaving |
| GoAudio.DownmixKeepsFrontPair | audio.go:353-361 | after a downmix the left and right channels are the source's channels 0 and 1, sample for sample |
| GoAudio.UpmixDuplicates | audio.go:362-370 | after the mono up-mix both stereo channels are the mono signal |
| GoAudio.BytesReadBack | audio.go:385-389 | a 16-bit sample written low byte then high byte reads back as itself |
| GoAudio.Serialise | audio.go:385-389 | the bytes hold two per sample: the low byte, then the high byte |
| GoAudio.SerialisePcm | audio.go:385-389 | the outBytes loop gives exactly Serialise |
| GoAudio.SerialiseRoundTrip | audio.go:302-306 | serialised samples decode as a 16-bit integer packet back to the same samples |
| GoAudio.OfferedKeepsPrefix | audio.go:19 | with nobody receiving, the channel keeps the first packets in order until its 100 places are full, and drops every later one |
| GoAudio.Survivors | audio.go:427-432 | after a broadcast exactly the connections whose write succeeded are still registered |
| GoAudio.AudioHub.constructor | audio.go:19 | the channel and the set of audio connections start empty |
| GoAudio.AudioHub.Offer | audio.go:398-401 | a packet is queued exactly when the channel has room, and dropped otherwise |
| GoAudio.AudioHub.Connect | main.go:132-134 | an audio client joins the set of connections |
| GoAudio.AudioHub.Disconnect | main.go:145-147 | an audio client leaves the set of connections |
| GoAudio.AudioHub.Broadcast | audio.go:426-433 | the packet reaches exactly the connections whose write succeeds, and the others are forgotten |
| GoAudio.AudioHub.Pump | audio.go:422-435 | the oldest queued packet goes out to the connections and only the surviving ones stay; with nothing queued nothing changes |
| GoAudio.Le16 | audio.go:489-494 | a 16-bit field takes two bytes |
| GoAudio.Le32 | audio.go:483-498 | a 32-bit field takes four bytes |
| GoAudio.WavHeader | audio.go:469-500 | the header is 44 bytes |
| GoAudio.Le16ReadsBack | audio.go:489-494 | a 16-bit field reads back as the value written |
| GoAudio.Le32ReadsBack | audio.go:483-498 | a 32-bit field reads back as the value written |
| GoAudio.WavHeaderReadsBack | audio.go:469-500 | the header reads back as a RIFF/WAVE header of 16-bit stereo PCM at 48 kHz whose block and byte rates agree with those fields, whose data size is the data length modulo 2^32 and whose RIFF size is 36 more |
| GoAudio.RiffChunk | audio.go:480-484 | the RIFF chunk takes 12 bytes |
| GoAudio.FmtChunk | audio.go:486-494 | the fmt chunk takes 24 bytes |
| GoAudio.DataChunk | audio.go:496-498 | the data chunk header takes 8 bytes |
| GoAudio.RiffChunkReadsBack | audio.go:476-484 | the RIFF chunk reads back as the RIFF and WAVE tags around a size of 36 more than the data length, modulo 2^32 |
| GoAudio.FmtChunkReadsBack | audio.go:486-494 | the fmt chunk reads back as 16-byte PCM, two channels, 48000 Hz, 192000 bytes per second, 4-byte blocks and 16 bits per sample |
| GoAudio.DataChunkReadsBack | audio.go:476-498 | the data chunk reads back as the data tag and the data length modulo 2^32 |
| GoAudio.WavHeaderLayout | audio.go:476-498 | the 44-byte header holds every tag at its offset and every field value of the canonical 16-bit stereo 48 kHz header |
| GoAudio.Placeholder | audio.go:449-451 | the placeholder is 44 bytes long |
| GoAudio.WithHeader | audio.go:474-500 | writing the header at offset 0 puts it over the first 44 bytes |
| GoAudio.SaveAsWritten | audio.go:441-467 | a closed file that cannot be created changes nothing; past the limit the capture is finished with the header; otherwise the data is counted |
| GoAudio.Save | audio.go:441-467 | past the limit the capture is finished and its size kept; an open capture has counted every byte written |
| GoAudio.SaveKeepsLayout | audio.go:441-467 | every save keeps the file laid out as placeholder plus data while open, and header plus data once finished; the data written is appended |
| GoAudio.FinishedCaptureIsFinal | audio.go:455-462 | a finished capture stays finished and unchanged by later saves |
| GoAudio.FinishedCaptureLostAsWritten | audio.go:441-462 | as written, the save after a finished capture re-creates the file, leaving only a header where the audio was |
| GoAudio.DebugCapture.constructor | audio.go:438-439 | no capture file is open and nothing is counted |
| GoAudio.DebugCapture.UpdateWavHeader | audio.go:469-500 | with an open file the header replaces its first 44 bytes; otherwise nothing changes |
| GoAudio.DebugCapture.SaveAudioDebugAsWritten | audio.go:441-467 | the new state is SaveAsWritten of the old one |
| GoAudio.DebugCapture.SaveAudioDebug | audio.go:441-467 | the new state is Save of the old one, and the file layout is kept |
| Encoders.AsRgb | encoders.py:144-146 | the picture handed to the process is RGB, with the size of the input, and an RGB picture is passed through unchanged |
| Encoders.JpegEncode | encoders.py:87-90 | the JPEG encoder returns JPEG bytes of the given picture at its own quality |
| Encoders.DetectBest | encoders.py:208-226 | NVENC exactly when there is an NVIDIA device, ffmpeg is on the path and `ffmpeg -encoders` lists h264_nvenc; FFmpeg exactly when ffmpeg is there and NVENC is not usable; JPEG exactly when ffmpeg is missing |
| Encoders.DetectPrefersBest | encoders.py:208-226 | a better encoder is never passed over: JPEG only without ffmpeg, never NVENC without an NVIDIA device or a usable encoder list |
| Encoders.Output | encoders.py:135-159 | every encoder returns a JPEG at quality 85 of a picture of the input's size (FFmpeg's of the RGB conversion, NVENC's through its JPEG fallback) |
| Encoders.FormatType | encoders.py:108-110 | corrected: the format label equals the format of the bytes the encoder returns, for every picture |
| Encoders.FfmpegLabelMismatch | encoders.py:108-110 | as written the FFmpeg encoder labels its JPEG bytes "h264" while NVENC and JPEG label theirs correctly |
| Encoders.FfmpegEncoder.constructor | encoders.py:96-103 | a new FFmpeg encoder has the given size and rate (1920x1080 at 30 by default) and no process |
| Encoders.FfmpegEncoder.Cleanup | encoders.py:161-169 | afterwards there is no process; size and launch count are unchanged |
| Encoders.FfmpegEncoder.EnsureProcess | encoders.py:112-133 | afterwards a process for exactly this size runs; it is the old one when the size is unchanged and a new, empty one (one more launch) otherwise |
| Encoders.FfmpegEncoder.Encode | encoders.py:135-159 | the process is ready for the picture's size; its frames are the old ones when the size is unchanged (else none, with one more launch) plus the RGB picture when the write succeeds; the result is the JPEG fallback on both paths |
| Encoders.EncoderManager.constructor | encoders.py:204-206 | the manager's encoder is the detected best one, with a fresh 1920x1080 FFmpeg encoder exactly when that is FFmpeg |
| Encoders.EncoderManager.Encode | encoders.py:236-239 | returns the active encoder's bytes and its label as written, which names the format of the bytes exactly when the encoder is not FFmpeg |
| Encoders.EncoderManager.Cleanup | encoders.py:241-242 | the FFmpeg encoder, when there is one, holds no process afterwards |
| Encoders.EncoderRegistry.constructor | encoders.py:246 | no manager exists before the first request |
| Encoders.EncoderRegistry.Get | encoders.py:248-253 | the first call creates and keeps a manager with the detected encoder; later calls return the same manager |
| Encoders.EncoderRegistry.CleanupEncoder | encoders.py:255-260 | the manager is forgotten and its FFmpeg process released |
| Wasapi.FirstCandidate | audio_capture.py:65-76 | the index found is that of a loopback device (whose name contains the default device's name, when one is required) and every device before it fails the test; None means no device passes |
| Wasapi.LoopbackOrder | audio_capture.py:55-82 | the default device is kept when it is a loopback device, a name-matching loopback device is preferred next, a loopback device is chosen whenever one exists, and the result is always the default device or one of the listed devices |
| Wasapi.FindLoopback | audio_capture.py:55-82 | None when the default device cannot be looked up, else the device the four-step search chooses |
| RtcAudio.Reshape | audio_capture.py:108-114 | the samples are cut into rows of the device's channel count (one column when it has at most one), row i holding samples i*n to i*n+n-1 |
| RtcAudio.RowValues | audio_capture.py:108-114 | value j of row i is the sample at i*n+j of the buffer |
| RtcAudio.PickRows | audio_capture.py:117-121 | resampling keeps the rows at the picked indices, in order, with the width unchanged |
| RtcAudio.AdjustChannelsAsWritten | audio_capture.py:123-128 | as written: mono becomes stereo by repeating the column, two or more channels become mono by keeping column 0, and any other width is left alone |
| RtcAudio.SurroundStaysWideAsWritten | audio_capture.py:123-128 | as written a six-channel capture stays six channels wide on a stereo track, so a frame carries three times the values its stereo layout announces |
| RtcAudio.AdjustChannels | audio_capture.py:123-128 | corrected: as written, and a capture of more than two channels keeps its front pair on a stereo track |
| RtcAudio.AdjustedWidth | audio_capture.py:123-128 | on a mono or stereo track every capture of at least one channel comes out with the track's channel count, and for one or two channels the correction changes nothing |
| RtcAudio.Enqueue | audio_capture.py:130-138 | the new chunk is last, the queue grows by one up to 100 and stays at 100 (the oldest dropped) when full |
| RtcAudio.EnqueueSuffix | audio_capture.py:130-138 | after one enqueue the queue is the newest part of the old queue followed by the new chunk |
| RtcAudio.EnqueueKeepsNewest | audio_capture.py:45 | after any number of chunks the queue holds the newest min(old + new, 100) of them in arrival order |
| RtcAudio.Zeros | audio_capture.py:200 | a silent block of the given size, every value zero |
| RtcAudio.FitFrame | audio_capture.py:223-227 | exactly 960 rows: the first rows are the block's own and any missing rows are zero rows of the block's width |
| RtcAudio.FitFrameStable | audio_capture.py:223-227 | fitting is idempotent and a block of exactly 960 rows is left unchanged |
| RtcAudio.SystemAudioTrack.constructor | audio_capture.py:39-53 | a new track has timestamp 0, an empty queue and no stream, and is running with one capture thread exactly when audio is available |
| RtcAudio.SystemAudioTrack.StartCapture | audio_capture.py:169-176 | afterwards the track is running; a thread is started only when it was not already running |
| RtcAudio.SystemAudioTrack.CleanupStream | audio_capture.py:178-193 | the stream and the PyAudio handle are released; nothing else changes |
| RtcAudio.SystemAudioTrack.OpenCapture | audio_capture.py:84-165 | the device is the loopback search's choice; without one the track stops running and releases everything; a failed open releases everything but leaves it running; a successful open holds a stream with the device's channels and rate |
| RtcAudio.SystemAudioTrack.OnAudio | audio_capture.py:104-140 | the queue becomes the old queue with the reshaped, resampled (when the rates differ) chunk enqueued after the channel adjustment as written |
| RtcAudio.SystemAudioTrack.Recv | audio_capture.py:195-240 | every frame has 960 samples at the track's rate, pts equal to the old timestamp, which advances by 960; it is the oldest queued chunk fitted to 960 rows, or silence when audio is unavailable, the track is stopped or nothing is queued |
| RtcAudio.SystemAudioTrack.Stop | audio_capture.py:242-247 | afterwards the track is not running and holds no stream |
| RtcAudio.GetAudioTrack | audio_capture.py:255-264 | None exactly when audio is unavailable, else a fresh running track with timestamp 0, two channels at 48000 Hz |
| LegacyAudio.PutNowait | legacy/python_websocket/audio_capture.py:107-110 | a full queue keeps what it had; any other queue gets the chunk at its end |
| LegacyAudio.Deliver | legacy/python_websocket/audio_capture.py:105-110 | every registered listener's queue is offered the chunk and no other queue changes |
| LegacyAudio.FullQueueMissesOnlyItself | legacy/python_websocket/audio_capture.py:105-110 | a full queue misses the chunk, every registered queue that is not full still gets it, and no queue ever exceeds its bound |
| LegacyAudio.UnboundedGetsEverything | legacy/python_websocket/audio_capture.py:100-110 | a registered unbounded queue receives every chunk read, in order |
| LegacyAudio.ReadsBeforeError | legacy/python_websocket/audio_capture.py:100-115 | the chunks delivered are exactly the successful reads before the first failed one |
| LegacyAudio.AudioCapture.constructor | legacy/python_websocket/audio_capture.py:30-39 | a new capture has the given rate and channels (48000 Hz, 2 by default), is not running and holds nothing |
| LegacyAudio.AudioCapture.AddListener | legacy/python_websocket/audio_capture.py:41-45 | the queue is added to the listener set, once however often it is added |
| LegacyAudio.AudioCapture.RemoveListener | legacy/python_websocket/audio_capture.py:47-51 | the queue is discarded from the set, and removing an absent queue changes nothing |
| LegacyAudio.AudioCapture.FindLoopbackDevice | legacy/python_websocket/audio_capture.py:53-91 | None without an audio handle or when the default device cannot be looked up, else the four-step loopback choice |
| LegacyAudio.AudioCapture.BroadcastChunk | legacy/python_websocket/audio_capture.py:105-110 | the queues become the result of offering the chunk to every registered listener |
| LegacyAudio.AudioCapture.AudioThread | legacy/python_websocket/audio_capture.py:93-120 | nothing is read unless running with a stream; otherwise every successful read before the first failure is broadcast, in order |
| LegacyAudio.AudioCapture.Start | legacy/python_websocket/audio_capture.py:122-177 | False and nothing changes without PyAudio; True without reopening when running; without a device False and no handle; otherwise the device's rate is adopted and the result, running state and stream follow whether the stream opened |
| LegacyAudio.AudioCapture.Stop | legacy/python_websocket/audio_capture.py:179-202 | afterwards not running, and no thread, stream or audio handle |
| Wgc.ToRgb | legacy/python_websocket/wgc_capture.py:68-70 | a four-channel frame becomes three channels per pixel taken in the order 2, 1, 0; any other frame is unchanged |
| Wgc.ToRgbSwapsBlueAndRed | legacy/python_websocket/wgc_capture.py:68-70 | each RGB pixel has red from BGRA position 2, green from 1 and blue from 0, and no alpha |
| Wgc.GrabImage | legacy/python_websocket/wgc_capture.py:103-106 | an image exactly when the grab returned a non-empty frame, with that frame's pixels |
| Wgc.CaptureByName | legacy/python_websocket/wgc_capture.py:47-75 | None without zbl; otherwise the grabbed non-empty frame, reordered to RGB when it has four channels, and None on any failure |
| Wgc.ByHwndStep | legacy/python_websocket/wgc_capture.py:77-112 | an image only through a camera made for this handle; a camera cached for the handle is reused; another handle closes the cached camera and makes one; any exception leaves no camera; the cache stays well formed |
| Wgc.SecondCaptureReusesCamera | legacy/python_websocket/wgc_capture.py:92-100 | a second capture of a handle that has a camera makes and closes no camera |
| Wgc.WindowCapture | legacy/python_websocket/wgc_capture.py:114-137 | the handle capture's image when it yields one, else the title capture's, else None; only the handle capture touches the camera cache |
| Wgc.WgcCapture.constructor | legacy/python_websocket/wgc_capture.py:40-45 | a new capture holds no camera, handle or title |
| Wgc.WgcCapture.CaptureByHwnd | legacy/python_websocket/wgc_capture.py:77-112 | with wincam, the new cache and the image are ByHwndStep's of the old cache; without it nothing changes and there is no image |
| Wgc.WgcCapture.CaptureWindow | legacy/python_websocket/wgc_capture.py:114-137 | the new cache and the image are WindowCapture's of the old cache; the title is kept |
| Wgc.WgcCapture.Cleanup | legacy/python_websocket/wgc_capture.py:139-149 | afterwards no camera, handle or title; a cached camera is closed |
| Wgc.WgcRegistry.constructor | legacy/python_websocket/wgc_capture.py:153 | no capture instance exists before the first request |
| Wgc.WgcRegistry.Get | legacy/python_websocket/wgc_capture.py:155-160 | the first call creates and keeps an instance with an empty cache; later calls return the same one |
| Wgc.WgcRegistry.CaptureWindowWgc | legacy/python_websocket/wgc_capture.py:162-175 | None without any capture library; otherwise image and cache are WindowCapture's of the shared instance's cache, an empty one on first use |
| WebRtc.Normalise | legacy/webrtc/webrtc_server.py:82-85 | a 2-D array becomes three equal channels, four channels are cut to the first three, and an array of any other depth is unchanged; the result has three channels exactly for 2-D, 3- and 4-channel input |
| WebRtc.NormaliseIdempotent | legacy/webrtc/webrtc_server.py:96-99 | normalising twice is normalising once |
| WebRtc.FromNdarray | legacy/webrtc/webrtc_server.py:108 | a frame of the array's size and pixels exactly when it has three channels |
| WebRtc.Black | legacy/webrtc/webrtc_server.py:73-76 | a 480x640 frame of the given format, every pixel [0, 0, 0] |
| WebRtc.FrameForFormats | legacy/webrtc/webrtc_server.py:73-112 | every frame has the given pts and three values per pixel; no screenshot gives the black bgr24 frame; a normalisable array is sent as bgr24 and a PIL image as rgb24 with their own pixels and size; a capture function that raised, or anything else, gives the black rgb24 frame of the error path |
| WebRtc.ScreenFrame | legacy/webrtc/webrtc_server.py:56-71 | without a capture function the screen grab is sent as rgb24 with each pixel's first three values reversed; a grab with fewer channels gives the black frame |
| WebRtc.ScreenCaptureTrack.constructor | legacy/webrtc/webrtc_server.py:27-32 | a new track has the given rate and client size, frame count 0 and no capture function |
| WebRtc.ScreenCaptureTrack.SetCaptureFunction | legacy/webrtc/webrtc_server.py:35-37 | the track's capture function is the one given |
| WebRtc.ScreenCaptureTrack.Recv | legacy/webrtc/webrtc_server.py:40-123 | the frame count grows by one exactly when the timestamp was obtained; the frame is the capture function's frame, the screen grab's without one, black rgb24 at the current pts when the capture function raised (after the count grew), or black with pts 0 when the timestamp failed |
| WebRtc.WebRtcManager.constructor | legacy/webrtc/webrtc_server.py:131-133 | no peer connections and no capture function |
| WebRtc.WebRtcManager.SetCaptureFunction | legacy/webrtc/webrtc_server.py:135-137 | the manager's capture function is the one given |
| WebRtc.WebRtcManager.HandleOffer | legacy/webrtc/webrtc_server.py:140-195 | a new peer connection joins the set; its video track has the manager's capture function exactly when the manager has one; it gets an audio track exactly when audio is available |
| WebRtc.WebRtcManager.CleanupPc | legacy/webrtc/webrtc_server.py:209-213 | the connection is discarded from the set and closed |
| WebRtc.WebRtcManager.Shutdown | legacy/webrtc/webrtc_server.py:215-219 | every open connection is closed and the set is empty |
| Speech.New | legacy/python_websocket/speech/speech-recognizer.js:21-37 | the language falls back on zh-CN when missing or empty; continuous and interim results fall back on "not Android" only when missing; nothing is listening, armed or pending |
| Speech.ExplicitFalseKept | legacy/python_websocket/speech/speech-recognizer.js:24-25 | an explicit false is kept, an empty language is replaced, and a missing flag is "not Android" |
| Speech.AfterInit | legacy/python_websocket/speech/speech-recognizer.js:42-101 | fails exactly when the browser has no recognition, else holds a recognition with the recognizer's settings, one alternative and the four handlers |
| Speech.AfterStart | legacy/python_websocket/speech/speech-recognizer.js:106-121 | fails only when a recognition must be made and cannot; otherwise the flag is recorded, start is called once more, and a failure is reported unless it says "already started" |
| Speech.AfterStop | legacy/python_websocket/speech/speech-recognizer.js:126-135 | auto-restart is cleared and the timeout cancelled always; the recognition is told to stop only while it is listening; nothing else changes |
| Speech.AfterDestroy | legacy/python_websocket/speech/speech-recognizer.js:140-149 | stops, then the recognition is released with its four handlers detached and no recognition is held |
| Speech.AfterOnStart | legacy/python_websocket/speech/speech-recognizer.js:54-64 | while handlers are attached: listening, the page's onStart is called, and on Android the timeout is armed |
| Speech.AfterTimeout | legacy/python_websocket/speech/speech-recognizer.js:60-62 | an armed timeout fires once and stops a recognizer that is still listening |
| Speech.AfterResult | legacy/python_websocket/speech/speech-recognizer.js:66-78 | the last result's trimmed transcript goes to the page with its final flag unless it is empty; a final result on Android cancels the timeout |
| Speech.HeardTextIsTrimmed | legacy/python_websocket/speech/speech-recognizer.js:66-73 | every text passed to the page is non-empty with no whitespace at either end, and a whitespace-only transcript passes nothing |
| Speech.AfterError | legacy/python_websocket/speech/speech-recognizer.js:80-86 | every error except "no-speech" and "aborted" goes to the page; the timeout is cancelled either way |
| Speech.AfterEnd | legacy/python_websocket/speech/speech-recognizer.js:88-98 | no longer listening, timeout cancelled; a restart is scheduled exactly when auto-restart is on in continuous mode, otherwise the page's onEnd is called |
| Speech.AfterRestartAsWritten | legacy/python_websocket/speech/speech-recognizer.js:94 | as written the scheduled restart calls start with auto-restart off |
| Speech.AutoRestartOnlyOnceAsWritten | legacy/python_websocket/speech/speech-recognizer.js:94 | as written, after one automatic restart the next end reaches onEnd although nobody stopped the recognizer |
| Speech.AfterRestart | legacy/python_websocket/speech/speech-recognizer.js:94 | corrected: the scheduled restart starts again with auto-restart kept on, and does nothing after a stop |
| Speech.AutoRestartPersists | legacy/python_websocket/speech/speech-recognizer.js:92-97 | with the corrected restart, any number of end-and-restart cycles keeps auto-restart on and reports only starts, and after stop the next end reaches onEnd |
| Speech.SpeechRecognizer.constructor | legacy/python_websocket/speech/speech-recognizer.js:21-37 | the object's state is the constructor's defaults |
| Speech.SpeechRecognizer.Start | legacy/python_websocket/speech/speech-recognizer.js:106-121 | the new state is the start step's, unchanged when init throws |
| Speech.SpeechRecognizer.Stop | legacy/python_websocket/speech/speech-recognizer.js:126-135 | the new state is the stop step's |
| Speech.SpeechRecognizer.Destroy | legacy/python_websocket/speech/speech-recognizer.js:140-149 | the new state is the destroy step's |
| Speech.SpeechRecognizer.OnStart | legacy/python_websocket/speech/speech-recognizer.js:54-64 | the new state is the onstart step's |
| Speech.SpeechRecognizer.TimeoutFires | legacy/python_websocket/speech/speech-recognizer.js:60-62 | the new state is the timeout step's |
| Speech.SpeechRecognizer.OnResult | legacy/python_websocket/speech/speech-recognizer.js:66-78 | the new state is the onresult step's |
| Speech.SpeechRecognizer.OnError | legacy/python_websocket/speech/speech-recognizer.js:80-86 | the new state is the onerror step's |
| Speech.SpeechRecognizer.OnEnd | legacy/python_websocket/speech/speech-recognizer.js:88-98 | the new state is the onend step's |
| Speech.SpeechRecognizer.RestartFires | legacy/python_websocket/speech/speech-recognizer.js:94 | the new state is the restart step as written: start without auto-restart, whatever stop did meanwhile |

## Left out

- Concurrency: the asyncio receiver task and its cancellation, the Go write goroutine beside the read loop, the mutexes and the capture threads. Every operation is modelled as one sequential step. `main.go` reads `lockedWindowHwnd` without holding `mu` (main.go:388, main.go:620); the model cannot show that race.
- Operating-system primitives: foreground window, window enumeration, window rectangles, PrintWindow/BitBlt/GetDIBits, SendInput, SetWindowPos, AttachThreadInput, the clipboard, pyautogui, dxcam, mss, zbl, wincam and WASAPI/PyAudio. Each is an input of the model: a title, a list, a rectangle, a grab outcome, a brightness value. Only the success of `setClipboard` is an input.
- Codec and image internals: JPEG and H.264 encoding, the FFmpeg pipe, PIL/numpy/cv2 conversions and resizing. Encoded bytes are symbolic values that record what they were made from.
- FFmpeg: a process that fails to start is not modelled, and the process's output is never read by the source, so it has no model.
- Floating point: float32 audio samples, the linear-interpolation resampling (audio.go:320-350), the clamp and scale to 16 bits (audio.go:373-382), the traffic statistics and the mean brightness. The Go frame delay is whole milliseconds, as in its source, and the earlier Python server's delay is a real number of seconds, as in its source.
- LegacyServer.WaitMs: the legacy stream's 0.033 s wait and its elapsed time are counted in whole milliseconds, so sub-millisecond timing is not modelled.
- Transport and plumbing: FastAPI/uvicorn startup, static pages, SSL, HTTP method checks and malformed-JSON answers (405 and 400 in `main.go`), WebRTC SDP and ICE negotiation, and `legacy/python_websocket/speech/server.py`.
- Go handlers not in the core: `handleStatus`, `handleWindows`, `handleRoot`, `handleCapture` and `handleMicStream`. `handleStatus` divides by the frame delay in whole milliseconds, so a delay under 1 ms would divide by zero (main.go:166).
- `captureScreenWithHwnd` (main.go:926) is never called and is not modelled.
- GoServer.Stream.ReadCommand: the `lock_result` JSON replies of `lock_current` and `unlock` are modelled as abstract answers, not as their exact fields.
- GoServer.Stream.SendFrame: the write deadline is not modelled; the outcome of a write (delivered, timed out, broken) is an input.
- Window coordinates are handed to SetWindowPos as integers; their conversion through `uintptr` is not modelled.
- Go map iteration order: the maps of saved rectangles and audio connections are modelled as maps and sets, so no order is assumed.
- GoServer.Launch: the sleeps between the key presses are timing only and are left out.
- Audio device plumbing: COM and WASAPI object calls and the body of `runAudioLoop` beyond the steps modelled in GoAudio are left out.
- GoAudio.DebugCapture.SaveAudioDebug: write errors and short writes are not modelled; every write is counted in full.
- RtcAudio: the `linspace` resampling indices are an input, the capture callback takes whole frames, the capture thread's final `_cleanup_stream` is not modelled, the three `get_nowait` retries are timing only, and queues are known by number.
- `stop_audio_track` refers to an `_audio_track` that is never defined (audio_capture.py:267-272), so it has no behaviour to model.
- `WebSocketDisconnect` is never imported (legacy/python_websocket/ghost_server.py:1039); the stream's exception and close handling (legacy/python_websocket/ghost_server.py:1029-1056) is left out.
- `background_click` and `background_type` (legacy/python_websocket/ghost_server.py:1089-1125, 1180-1191) are not modelled; `background_key`'s key table is.
- LegacyServer.Interact: the `window` and `pos` fields of the replies are abstracted; the encoder call in the stream's send path is an input.
- WebRtc.ScreenCaptureTrack.Recv: a screen grab that raises in the fallback without a capture function (legacy/webrtc/webrtc_server.py:59-70) is not modelled; the grab's pixels are an input.
- WebRtc: the mss grab is an input, and the track's `fps` and `client_dims` are stored but never used by the source.
- Speech: the ten-second Android timer is a flag the environment sets; the page's callbacks are recorded as a log; a result event is taken to carry at least one result; after `destroy` the browser object may still fire, which the model represents as handlers that are detached.
- Text.PyDigits / Text.PyInt: only the ASCII digits 0-9 are accepted; Python's `int()` also accepts other Unicode decimal digits, which the model does not.
- Manual scripts and configuration (`test_audio.py`, `test_open_app.py`, `legacy/webrtc/test_wgc.py`, `legacy/webrtc/test_min_rect.py`, `legacy/python_websocket/test_wgc_quick.py`, `legacy/webrtc/config.py`) hold no logic to model.

## Findings

| source | as written | input that shows it | evidently intended | confidence | as-written member | corrected member |
|---|---|---|---|---|---|---|
| legacy/python_websocket/ghost_server.py:1522-1525 | the outer `except Exception` turns the 400 raised for an unknown action into a 500 | action "fly" | an unknown action is answered with 400 | not executed; high | LegacyServer.UnknownActionIs500 | Interaction.OuterHandler |
| legacy/python_websocket/ghost_server.py:336-344 | "auto" starts capture with the duplication backend when it is installed, while the reported engine also needs cv2 | dxcam installed, cv2 missing, mss installed: reported "mss", capture goes to the PIL screen grab | the engine used is the engine reported | not executed; high, but latent: `CAPTURE_ENGINE` is "mss" at legacy/python_websocket/ghost_server.py:103 and nothing reassigns it, so "auto" is never the setting | LegacyCapture.EngineReportMismatch | LegacyCapture.ReportedEngineIsUsed |
| legacy/python_websocket/ghost_server.py:973-986 | with no window found, the placeholder caption "未知" is recorded as the window shown and can then be locked by `lock_current` | a cycle with no foreground window, then `lock_current` | the placeholder is never recorded | not executed; medium | LegacyServer.NoWindowRecordsPlaceholder | LegacyServer.NoWindowKeepsRecord |
| legacy/python_websocket/ghost_server.py:767-770 | the WebSocket `unlock` leaves PENDING_ACTIVATION set | `lock "Notepad"` then `unlock` over the WebSocket | both unlock paths clear the pending activation | not executed; high | LegacyServer.UnlockPathsDisagree | LegacyServer.UnlockPathsAgree |
| main.go:383-385 | the HTTP `hotkey` action calls `simulateKey` on the whole text, which maps "ctrl+c" to no key | hotkey "ctrl+c" | the modifier and key are pressed as a hotkey | not executed; medium | GoServer.HotkeyCtrlCAsWritten | GoInput.HotkeyCalls |
| audio.go:441-466 | after the size limit closes the capture, the next call re-creates the file and truncates the recorded audio | a save when the capture holds more than 5 MiB and is closed | a finished capture is left alone | not executed; low, the only caller is commented out | GoAudio.FinishedCaptureLostAsWritten | GoAudio.FinishedCaptureIsFinal |
| encoders.py:108-110 | the FFmpeg encoder reports "h264" while it returns JPEG bytes | any frame encoded with FFmpeg present and no NVENC | the label matches the bytes | not executed; high | Encoders.FfmpegLabelMismatch | Encoders.FormatType |
| audio_capture.py:123-128 | a capture of more than two channels is not narrowed to the stereo track | a 6-channel loopback device | every chunk has the track's channel count | not executed; medium | RtcAudio.SurroundStaysWideAsWritten | RtcAudio.AdjustedWidth |
| legacy/python_websocket/speech/speech-recognizer.js:94 | the restart calls `start()` without arguments, which records autoRestart as false, so the recogniser restarts only once | `start(true)` in continuous mode, then two ends of recognition | the recogniser keeps restarting until stopped | not executed; high | Speech.AutoRestartOnlyOnceAsWritten | Speech.AutoRestartPersists |
