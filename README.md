# SocialMonitoring — a Dafny model of its decision rules

SocialMonitoring is a macOS utility. It listens to every key-down event system-wide. When Return is pressed while a messaging app is frontmost, it waits 0.2 s, finds the focused window through the Accessibility API, captures that rectangle and saves it as `SocialCap_<seconds>.png` on the desktop. A PermissionManager records whether the process may use the Accessibility API and record the screen.

This project models the decision rules under that plumbing. Every OS call is an input or an oracle:

- the key event is a record `{keyCode, command, shift}`;
- the frontmost app is an `Option<RunningApp>` whose bundle ID is itself optional;
- the four `AXUIElementCopyAttributeValue` queries are fields of an `Accessibility` record (an error code plus an optional value);
- the monitor handle returned by `addGlobalMonitorForEvents` is a parameter;
- capture, image conversion, PNG encoding and the success of the file write are fields of `CaptureServices`;
- the clock is a timestamp parameter;
- the desktop directory is a `map` from file name to bytes;
- the permission answers (`AXIsProcessTrustedWithOptions`, `CGPreflightScreenCaptureAccess`, `URL(string:)`) are parameters.

What the code asks of the OS beyond a query comes back as a value. A key press returns its list of actions (frontmost app queried, capture scheduled after 200 ms). The permission methods return the trace of OS calls they make. Stopping the monitor returns the handle passed to `removeMonitor`.

Files:

- `wrappers.dfy`: `Option`, Swift's optional.
- `decimal.dfy`: how Swift renders an `Int` in string interpolation, plus a parser proved to invert it.
- `activity_manager.dfy`: `ActivityManager.swift`.
- `permission_manager.dfy`: `PermissionManager.swift`.

Command is tested first (`ActivityManager.swift:41`), so Shift+Command+Return qualifies (`ShiftCommandReturnQualifies`).

## Model

| member | source | states |
|---|---|---|
| ActivityManagement.Classify | SocialMonitoring/Managers/ActivityManager.swift:32-51 | a key-down is accepted exactly when it is Return and Command is held or Shift is not; it is the Command branch exactly when Command is held, the plain branch exactly when neither modifier is held |
| ActivityManagement.HandleKeyPress | SocialMonitoring/Managers/ActivityManager.swift:31-52 | a non-Return key causes no action at all; a press causes any action exactly when it qualifies, then queries the frontmost app exactly once, and a capture is scheduled exactly when it qualifies and the frontmost app is monitored |
| ActivityManagement.ShiftReturnIgnored | SocialMonitoring/Managers/ActivityManager.swift:47-51 | Shift+Return does nothing, whatever app is in front |
| ActivityManagement.ShiftCommandReturnQualifies | SocialMonitoring/Managers/ActivityManager.swift:40-45 | Shift+Command+Return takes the Command branch and runs the app check |
| ActivityManagement.Contains | SocialMonitoring/Managers/ActivityManager.swift:60 | an ID is contained exactly when some entry of the list is equal to it (case-sensitive) |
| ActivityManagement.CheckCurrentAppAndScreenshot | SocialMonitoring/Managers/ActivityManager.swift:54-67 | the frontmost app is queried once, first; a capture with the 200 ms delay is scheduled, at most once, exactly when an app with a bundle ID is in front and that ID is one of the six listed; nothing else happens |
| ActivityManagement.WhatsAppReturnSchedulesCapture | SocialMonitoring/Managers/ActivityManager.swift:21-28 | plain Return with `net.whatsapp.WhatsApp` in front queries the app and schedules one capture after 200 ms |
| ActivityManagement.UnlistedAppSchedulesNothing | SocialMonitoring/Managers/ActivityManager.swift:56-66 | plain Return with `com.apple.Finder`, or with `net.whatsapp.whatsapp` (wrong case), in front only queries the app |
| ActivityManagement.ActivityManager.constructor | SocialMonitoring/Managers/ActivityManager.swift:29 | a new manager has no monitor installed |
| ActivityManagement.ActivityManager.StartMonitoring | SocialMonitoring/Managers/ActivityManager.swift:72-77 | with a monitor installed, nothing changes and nothing is installed; otherwise one install is requested and its handle (possibly none) is stored |
| ActivityManagement.ActivityManager.StopMonitoring | SocialMonitoring/Managers/ActivityManager.swift:79-84 | the handle is empty afterwards; the handle removed is exactly the one that was installed, and none when already stopped |
| ActivityManagement.ActivityManager.OnKeyDown | SocialMonitoring/Managers/ActivityManager.swift:74-76 | a key-down reaches the key handler only while a monitor is installed, and otherwise causes nothing |
| ActivityManagement.FocusedWindow | SocialMonitoring/Managers/ActivityManager.swift:107-123 | the window is missing exactly when the focused-application lookup or the focused-window lookup on that application fails; when found, it is the window that the focused-window query on the focused application returned |
| ActivityManagement.LocatedFrame | SocialMonitoring/Managers/ActivityManager.swift:104-142 | the frame is none exactly when the focused window is not found; otherwise its origin is the reported point, or zero when the position query failed, and its size is the reported size, or zero when the size query failed |
| ActivityManagement.LocatedFrameAbsent | SocialMonitoring/Managers/ActivityManager.swift:104-122 | the frame is none exactly when the application lookup or the window lookup fails |
| ActivityManagement.LocatedFrameComponents | SocialMonitoring/Managers/ActivityManager.swift:125-141 | once the window is found, a frame is returned; its origin is the reported point, or zero when the position query failed, and its size is the reported size, or zero when the size query failed, each independently |
| ActivityManagement.ActivityManager.GetFocusedWindowFrame | SocialMonitoring/Managers/ActivityManager.swift:104-142 | the step-by-step lookup, which returns early and fills zero-initialised position and size, returns exactly the located frame |
| ActivityManagement.CaptureRect | SocialMonitoring/Managers/ActivityManager.swift:92-93 | the capture rectangle is the located frame when there is one, and exactly {0, 0, 400, 400} otherwise |
| ActivityManagement.MissingWindowUsesFallback | SocialMonitoring/Managers/ActivityManager.swift:119-122 | when the app is found but its focused window is not, the capture uses {0, 0, 400, 400} |
| ActivityManagement.ActivityManager.TakeScreenshot | SocialMonitoring/Managers/ActivityManager.swift:89-102 | the rectangle captured is the located frame or the fallback; the image is saved only when capture and conversion succeed, and the desktop is unchanged otherwise |
| ActivityManagement.ScreenshotFileName | SocialMonitoring/Managers/ActivityManager.swift:154-155 | the name starts with `SocialCap_`, ends with `.png`, and between them holds the decimal numeral of the timestamp |
| ActivityManagement.ScreenshotFileNameRoundTrip | SocialMonitoring/Managers/ActivityManager.swift:155 | the timestamp can be read back from the file name |
| ActivityManagement.ScreenshotFileNameInjective | SocialMonitoring/Managers/ActivityManager.swift:154-155 | two timestamps give the same file name exactly when they are equal |
| ActivityManagement.SaveImageToDesktop | SocialMonitoring/Managers/ActivityManager.swift:147-163 | when encoding and the write succeed, the PNG is stored under the timestamped name; every other file is kept unchanged and no other file appears; a failed encoding or write leaves the desktop as it was |
| ActivityManagement.SameSecondOverwrites | SocialMonitoring/Managers/ActivityManager.swift:154-158 | two saves with the same timestamp leave one file, holding the second image |
| ActivityManagement.DistinctSecondsKeepBoth | SocialMonitoring/Managers/ActivityManager.swift:154-158 | two saves with different timestamps leave both files, each with its own image |
| Decimal.NatToDecimal | SocialMonitoring/Managers/ActivityManager.swift:155 | the rendering of a non-negative integer is a non-empty string of digits with no leading zero, and "0" for zero |
| Decimal.IntToDecimal | SocialMonitoring/Managers/ActivityManager.swift:155 | the rendering starts with a minus sign exactly for negative values; it is otherwise all digits; and it never has a leading zero, except the single "0" for zero |
| Decimal.IntDecimalRoundTrip | SocialMonitoring/Managers/ActivityManager.swift:155 | parsing the rendering of any integer gives that integer back |
| Decimal.IntToDecimalInjective | SocialMonitoring/Managers/ActivityManager.swift:155 | two integers are rendered alike exactly when they are equal |
| Permissions.PermissionManager.constructor | SocialMonitoring/Managers/PermissionManager.swift:21-22 | both flags start false, so permissions are initially not granted |
| Permissions.PermissionManager.ArePermissionsGranted | SocialMonitoring/Managers/PermissionManager.swift:46-48 | granted when both flags are true; not granted as soon as either flag is false |
| Permissions.GrantedNeedsBoth | SocialMonitoring/Managers/PermissionManager.swift:46-48 | permissions are granted exactly when both flags are true; either flag false makes them not granted |
| Permissions.PermissionManager.CheckAccessibility | SocialMonitoring/Managers/PermissionManager.swift:24-29 | one trust query is made, with the prompt option set, and its answer is returned unchanged |
| Permissions.PermissionManager.CheckScreenRecording | SocialMonitoring/Managers/PermissionManager.swift:31-40 | the preflight check is always made first; the result is true exactly when it passes; access is requested exactly when it fails, and then the result is false |
| Permissions.PermissionManager.AskForPermissions | SocialMonitoring/Managers/PermissionManager.swift:50-53 | the accessibility flag becomes the trust answer and the screen-recording flag the preflight answer; the calls are the trust check, then the preflight, then a request only when the preflight failed |
| Permissions.PermissionManager.OpenSettings | SocialMonitoring/Managers/PermissionManager.swift:55-61 | the screen-recording settings URL is opened when it parses and nothing is done otherwise; the flags are not touched (the method modifies nothing) |

## Left out

- The `NSEvent.addGlobalMonitorForEvents`/`removeMonitor` calls themselves. The handle is an opaque value passed in or returned.
- The 0.2 s `DispatchQueue.main.asyncAfter` delay and the `Task` wrapper. This is timing and concurrency. A scheduled capture is an action value carrying its delay, and `TakeScreenshot` is the work it runs. Overlapping captures are not modelled.
- `SCScreenshotManager.captureImage`, `asNSImage`, the TIFF/bitmap/PNG encoding and the file write. These are OS and library calls, modelled as oracles that may fail. The write is all-or-nothing; partial writes are not modelled.
- SaveImageToDesktop: file names are matched exactly, as map keys. On a case-insensitive volume (the macOS default for APFS and HFS+), a file whose name differs from the screenshot's only in letter case, such as `socialcap_5.png`, is the file the write replaces; the model instead keeps it and adds a new entry.
- The desktop URL lookup and its forced `.first!`. The desktop is given as the directory's contents.
- `Date()` and the `Int(...)` conversion of a floating-point time interval. The timestamp is an integer parameter and any integer is handled; the 64-bit bound of Swift's `Int` and a trap on out-of-range conversion are not modelled.
- `CGFloat` geometry. Coordinates are integers.
- The forced casts `as! AXUIElement` and `as! AXValue`. The model ignores them. A successful app or window lookup always holds an element. A successful position or size query whose value is missing or of another kind leaves the component at zero, as `AXValueGetValue` does when it fails, instead of trapping.
- Contains: compares bundle IDs element by element as `seq<char>`, while Swift's `String ==` compares by Unicode canonical equivalence. The two agree whenever one side is one of the six listed IDs, since these are plain ASCII and contain none of the characters (`K`, `;`, `` ` ``) that another single character is canonically equivalent to; normalisation is not modelled.
- The AX error codes beyond success/failure. `AXFailure` carries an uninterpreted code.
- `print` logging, including the localized app name (kept only as a field of `RunningApp`).
- The permission screen and `onAppear` gating in `SocialMonitoring/Views/ContentView.swift`, the app bootstrap in `SocialMonitoring/SocialMonitoringApp.swift`, and the `CGImage+NSImage.swift` adapter. These are UI and AppKit glue.
- `@Published` change notifications on the permission flags. These are observation plumbing.
