# window_control (Windows) in Dafny

This project models the Windows side of the `window_control` plugin for a
Flutter desktop application. The plugin's handler receives a method name and an
argument map from the Dart side. It drives the Win32 window manager on the
active window, then answers with a boolean, a small string-keyed map of
numbers, or the "not implemented" signal. The handler keeps one piece of
state: `normalRect`, the rectangle a title-bar double tap restores the window to.

The model has three modules:

- `Win32` (`win32.dfy`) is the abstract environment. The active window and the
  desktop window each have a `Rect`, and reading either one may fail. The
  active window also has a style word, and a move may succeed or fail. Every
  call with a side effect is appended to a log (`Call`). The class `Os` holds
  this state. Its methods stand for `GetWindowRect` (assumed to leave the caller's
  local untouched when it fails; see "Left out"), `GetWindowLong`/`SetWindowLong` and
  `MoveWindow`, plus the calls whose only modelled effect is their log entry.
- `WindowRules` (`window_rules.dfy`) holds the integer decision logic inside
  the handler, as pure definitions with their properties proved:
  - the resize edge table (`Pattern`, `Code`, `IsResizeCommand`);
  - the double-tap "looks maximised" test (`LooksMaximized`) and toggle
    (`PlanTap`);
  - the title-bar style mask (`StripTitleBar`);
  - the maps the getters reply with;
  - C's integer halving and double-to-int truncation, used when a window is
    centred or moved to caller-supplied coordinates.
- `WindowControl` (`window_control.dfy`) is the plugin itself. The handler's
  chain of name comparisons becomes `CommandOf`. The class
  `WindowControlPlugin` holds `normalRect`. (The `Command` constructors carry a `Cmd` prefix so they do not share names with the branch methods.) `Handle` dispatches to one method
  per branch of the handler, and each method is proved against the rules
  above. Two client methods state sequence properties over the imperative
  model: the double-tap round trip, and setting a position then reading it back.

Notes on representation:

- `RECT` fields (`LONG`) are unbounded integers, and the style word is a `bv32`.
- The handler compares against the `5.0` padding with `double` arithmetic.
  That is exact for 32-bit integers, so the comparison is stated over integers.
- Replies carry `real` values, because the handler sends every number as a
  `double`.
- The `double` arguments of `setWindowSize` and `setWindowPosition` are
  `real`s. When passed to `MoveWindow` they are truncated toward zero
  (`TruncToInt`).
- `centerWindow`'s coordinates are modelled exactly. Half the desktop's extent
  uses integer division toward zero (`HalfTowardZero`), half the window's
  extent uses `double` division, and the difference is truncated.
  `CenterOffsetCentres` shows that the window's centre lands within one pixel
  of the desktop's centre, and exactly on it when both extents are even.
  Centring on `((screenWidth − W)/2, …)` is therefore only exact for even
  extents. The code uses the desktop's extent without adding the desktop's
  left and top. The model follows the code on both points.
- `getScreenSize` reports the desktop's absolute `right` and `bottom`, not
  its extent. `ScreenSizeIsExtentAtOrigin` states when the two agree.
- If a double tap comes before any rectangle has been saved, it restores to
  the indeterminate initial `normalRect`. The constructor assigns it an
  arbitrary value, and no property assumes anything about it.

## Model

| member | source | states |
|---|---|---|
| `Win32.PlacedAtOwnGeometry` | window_control/windows/window_control_plugin.cpp:210-224 | moving a window to a rectangle's own left, top, right−left and bottom−top puts it exactly on that rectangle |
| `WindowRules.PatternsExclusive` | window_control/windows/window_control_plugin.cpp:120-151 | no two of the eight grab-flag patterns coincide, so the order in which the handler tests them cannot change the edge it picks |
| `WindowRules.CodeRoundTrip` | window_control/windows/window_control_plugin.cpp:122-150 | each edge's WMSZ code lies in 1..8 and decodes back to that edge, so the eight codes are distinct |
| `WindowRules.NoEdgeIff` | window_control/windows/window_control_plugin.cpp:119-152 | the flags select no edge exactly when none is set, three or more are set, or top+bottom or left+right are both set |
| `WindowRules.ResizeCommandDecodes` | window_control/windows/window_control_plugin.cpp:119-152 | the command sent has SC_SIZE above its low four bits and the selected edge's code (or nothing) in them |
| `WindowRules.FlushLooksMaximized` | window_control/windows/window_control_plugin.cpp:184-203 | a window exactly covering the desktop is classified maximised |
| `WindowRules.TapTwiceRestores` | window_control/windows/window_control_plugin.cpp:204-225 | a tap on a window that does not look maximised saves its rectangle and fills the desktop; the filled window looks maximised, so a second tap returns it to the saved rectangle and keeps that rectangle saved |
| `WindowRules.TitleBarMaskBits` | window_control/windows/window_control_plugin.cpp:79 | the OR of WS_CAPTION, WS_THICKFRAME, WS_MINIMIZEBOX, WS_MAXIMIZEBOX, WS_SYSMENU and WS_DLGFRAME sets exactly bits 16-19, 22 and 23, six bits |
| `WindowRules.StripTitleBar` | window_control/windows/window_control_plugin.cpp:76-80 | after `lStyle &= ~mask` each of the six title-bar bits is clear and every other bit equals the original |
| `WindowRules.StripIdempotent` | window_control/windows/window_control_plugin.cpp:79 | clearing the title-bar bits a second time changes nothing |
| `WindowRules.ScreenSizeIsExtentAtOrigin` | window_control/windows/window_control_plugin.cpp:101-102 | the screen size {width: right, height: bottom} equals the desktop's extent if and only if the desktop's left and top are 0 |
| `WindowRules.ResizeReadsBack` | window_control/windows/window_control_plugin.cpp:276-278 | after a resize that keeps left/top, the window size reads back as the requested width and height, and the position is unchanged |
| `WindowRules.MoveReadsBack` | window_control/windows/window_control_plugin.cpp:294-296 | after a move that keeps right−left and bottom−top, the window position reads back as the requested x and y, and the size is unchanged |
| `WindowRules.HalfTowardZero` | window_control/windows/window_control_plugin.cpp:257-258 | C's `n / 2` on a LONG: twice the quotient is n or one nearer to zero |
| `WindowRules.TruncToInt` | window_control/windows/window_control_plugin.cpp:257-259 | converting a double to int drops the fraction toward zero: the result has the same sign and lies less than 1 from the value |
| `WindowRules.TruncOfWhole` | window_control/windows/window_control_plugin.cpp:276-278 | a coordinate read into a double and passed back to MoveWindow is unchanged |
| `WindowRules.CenterOffsetCentres` | window_control/windows/window_control_plugin.cpp:255-259 | for a non-negative desktop extent S and a window extent W, the chosen offset x satisfies −2 ≤ 2x + W − S ≤ 1, with 2x = S − W when S and W are even |
| `WindowControl.NamesRoundTrip` | window_control/windows/window_control_plugin.cpp:72-333 | each of the fourteen method names selects its own branch, and a name selects a branch only if it is that branch's name; every other name falls through to NotImplemented |
| `WindowControl.ResizeCommand` | window_control/windows/window_control_plugin.cpp:119-151 | the if-chain OR-ing a WMSZ code into SC_SIZE yields SC_SIZE plus the code of the edge whose pattern the flags are, or bare SC_SIZE when they match no pattern |
| `WindowControl.Classify` | window_control/windows/window_control_plugin.cpp:184-203 | the four sequential comparisons set `isMaximized` if and only if some side of the window lies within 5 px of (or beyond) the desktop's corresponding side |
| `WindowControl.WindowControlPlugin.Handle` | window_control/windows/window_control_plugin.cpp:66-335 | for every recognised name, the reply and the new window state are those of its branch; an unknown name gets NotImplemented and has no effect; no command other than the double tap changes normalRect; a recognised name never gets NotImplemented; the double tap always issues exactly one move and, when a query fails, keeps the guarantees listed for WindowTitleDoubleTap |
| `WindowControl.WindowControlPlugin.HideTitleBar` | window_control/windows/window_control_plugin.cpp:72-85 | detaches the menu, sets the style to the stripped style, issues SetWindowPos with FRAMECHANGED/NOMOVE/NOSIZE/NOZORDER/NOOWNERZORDER, leaves the rectangle alone, and replies true |
| `WindowControl.WindowControlPlugin.ShowTitleBar` | window_control/windows/window_control_plugin.cpp:86-93 | only detaches the menu (the style bits are not restored) and replies true |
| `WindowControl.WindowControlPlugin.GetScreenSize` | window_control/windows/window_control_plugin.cpp:94-108 | replies {width: right, height: bottom} of the desktop, or an empty map when the desktop rectangle cannot be read |
| `WindowControl.WindowControlPlugin.StartResize` | window_control/windows/window_control_plugin.cpp:109-155 | releases capture, then sends WM_SYSCOMMAND with the command the edge table prescribes for the flags, and replies true whatever the flags |
| `WindowControl.WindowControlPlugin.StartDrag` | window_control/windows/window_control_plugin.cpp:156-163 | releases capture, sends WM_SYSCOMMAND with SC_MOVE \| HTCAPTION, replies true |
| `WindowControl.WindowControlPlugin.CloseWindow` | window_control/windows/window_control_plugin.cpp:164-170 | sends WM_CLOSE and replies true |
| `WindowControl.WindowControlPlugin.MinimizeWindow` | window_control/windows/window_control_plugin.cpp:171-177 | issues ShowWindow(SW_MINIMIZE) and replies true |
| `WindowControl.WindowControlPlugin.WindowTitleDoubleTap` | window_control/windows/window_control_plugin.cpp:178-231 | issues exactly one MoveWindow, which the window follows, and replies true. With both rectangles readable, a window that does not look maximised is saved in normalRect and moved onto the desktop rectangle, and one that does is moved onto normalRect, which stays as it was. If the window's rectangle cannot be read, normalRect is unchanged and the move goes to the desktop or to normalRect (when the desktop is readable). If only the desktop's rectangle cannot be read, either normalRect is unchanged and the move went to it, or normalRect is now the window's rectangle |
| `WindowControl.WindowControlPlugin.MaximizeWindow` | window_control/windows/window_control_plugin.cpp:232-238 | issues ShowWindow(SW_SHOWMAXIMIZED) and replies true |
| `WindowControl.WindowControlPlugin.CenterWindow` | window_control/windows/window_control_plugin.cpp:239-264 | when both rectangles can be read, moves the window, keeping its size, to the centring offsets and replies whether the move succeeded; otherwise replies false and does nothing |
| `WindowControl.WindowControlPlugin.SetWindowSize` | window_control/windows/window_control_plugin.cpp:265-282 | keeps left/top and applies the truncated requested width/height, replying the move's success; replies false without moving when the window rectangle cannot be read |
| `WindowControl.WindowControlPlugin.SetWindowPosition` | window_control/windows/window_control_plugin.cpp:283-300 | keeps right−left and bottom−top and applies the truncated requested x/y, replying the move's success; replies false without moving when the window rectangle cannot be read |
| `WindowControl.WindowControlPlugin.GetWindowSize` | window_control/windows/window_control_plugin.cpp:301-315 | replies {width: right−left, height: bottom−top}, or an empty map when the rectangle cannot be read |
| `WindowControl.WindowControlPlugin.GetWindowPosition` | window_control/windows/window_control_plugin.cpp:316-330 | replies {x: left, y: top}, or an empty map when the rectangle cannot be read |
| `WindowControl.TapTwiceRestoresWindow` | window_control/windows/window_control_plugin.cpp:178-231 | two windowTitleDoubleTap calls on a window that does not look maximised (both rectangles readable, moves honoured) leave it exactly where it started, with that rectangle saved in normalRect and the style word unchanged; they log exactly the two moves |
| `WindowControl.PositionReadsBack` | window_control/windows/window_control_plugin.cpp:283-330 | after setWindowPosition with whole-number x and y succeeds, getWindowPosition replies {x, y} and getWindowSize replies what it replied before |

## Left out

- Channel registration and plugin lifetime (window_control_plugin.cpp:43-64 and 338-344) are framework wiring with no logic.
- Argument decoding is not modelled. The handler reads each argument with `std::get`/`map.at`, which throws on a missing key or a wrong type. `WellTypedArgs` makes well-typed arguments a precondition instead.
- The Win32 calls themselves are not modelled (`SendMessage`, `ReleaseCapture`, `ShowWindow`, `SetMenu`, `SetWindowPos`, and what an interactive move or resize then does). Each appears only as an entry in the call log. Only `MoveWindow` (which updates the active rectangle when it succeeds) and `SetWindowLong` (which updates the style word) change window state.
- `GetActiveWindow`/`GetDesktopWindow` are assumed to name the same two windows throughout a call. A NULL active window is not modelled.
- 32-bit overflow of `LONG` arithmetic (`right - left` on extreme coordinates) is not modelled, because coordinates are unbounded integers.
- NaN, infinities, and doubles outside the `int` range passed to `setWindowSize`/`setWindowPosition` are not modelled. Converting such a value to `int` is undefined behaviour.
- `WindowControl.WindowControlPlugin.WindowTitleDoubleTap`: when the desktop's rectangle cannot be read, the contract does not say where the window is moved if it is classified "not maximised". The handler then compares an uninitialised `RECT` and moves the window onto it, and the contents of that `RECT` are indeterminate. The contract still states that exactly one MoveWindow is issued and that the window follows it. It states that normalRect is either unchanged (and the move went to it) or set to the window's rectangle, and that reply is true.
- When `GetWindowRect` fails, the model assumes it leaves the caller's `RECT` untouched. Win32 does not document what happens to the output rectangle on failure. The double tap's statements about a failed query rest on this assumption, notably that normalRect is unchanged when the window's rectangle cannot be read.
- The handler's `centerWindow` computes `screenWidth`, `screenHeight`, `centerX` and `centerY` (lines 248-251) and never uses them. They have no effect and are not modelled.
- Serialised delivery of calls on the platform thread is an external contract of the framework. Concurrent calls are not modelled.
