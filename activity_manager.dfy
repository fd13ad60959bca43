/**
 * The ActivityManager: a global key-down listener that, on Return pressed in
 * a messaging app, schedules a screenshot of the focused window and saves it
 * to the desktop as SocialCap_<seconds>.png.
 *
 * Every operating-system service is an input here: the key event, the
 * frontmost application, the accessibility attribute queries, the monitor
 * handle the OS hands back, the capture and encoding services, the clock and
 * the success of the file write. What the manager asks of the OS beyond a
 * query is returned as a value (the actions of a key press, the desktop
 * contents after a save).
 */
module ActivityManagement {
  import opened Wrappers
  import opened Decimal

  // ---------------------------------------------------------------------
  // Key events and their classification

  /** A key code of the Carbon virtual-key table (`UInt16`). */
  newtype KeyCode = k: int | 0 <= k < 0x1_0000

  /** `kVK_Return`. */
  const ReturnKeyCode: KeyCode := 0x24

  /** A key-down event: its code and the two modifier flags the manager looks at. */
  datatype KeyEvent = KeyEvent(keyCode: KeyCode, command: bool, shift: bool)

  /** Which branch of the key handler accepted the press. */
  datatype Trigger = CommandReturn | StandardReturn

  /** Qualifying presses, stated directly: Return, with Command or without Shift. */
  predicate Qualifies(e: KeyEvent) {
    e.keyCode == ReturnKeyCode && (e.command || !e.shift)
  }

  /**
   * The branches of the key handler: anything but Return is dropped, Command
   * is tested first, then the press with neither Command nor Shift.
   */
  function Classify(e: KeyEvent): (t: Option<Trigger>)
    ensures t.Some? <==> Qualifies(e)
    ensures t == Some(CommandReturn) <==> e.keyCode == ReturnKeyCode && e.command
    ensures t == Some(StandardReturn) <==> e.keyCode == ReturnKeyCode && !e.command && !e.shift
  {
    if e.keyCode != ReturnKeyCode then None
    else if e.command then Some(CommandReturn)
    else if !e.command && !e.shift then Some(StandardReturn)
    else None
  }

  // ---------------------------------------------------------------------
  // The frontmost application and the monitored set

  /** The frontmost application as the workspace reports it; its bundle ID may be missing. */
  datatype RunningApp = RunningApp(bundleIdentifier: Option<string>, localizedName: Option<string>)

  /** The bundle IDs of the monitored messaging apps, in the order `ActivityManager.swift` lists them. */
  const SocialAppBundleIDs: seq<string> := [
    "ru.keepcoder.Telegram",
    "com.tdesktop.Telegram",
    "net.whatsapp.WhatsApp",
    "com.hnc.Discord",
    "com.apple.iChat",
    "com.viber.mac"
  ]

  /** Array membership by exact (case-sensitive) string equality. */
  function Contains(ids: seq<string>, id: string): (r: bool)
    ensures r <==> exists i :: 0 <= i < |ids| && ids[i] == id
    decreases |ids|
  {
    if ids == [] then false
    else ids[0] == id || Contains(ids[1..], id)
  }

  /** The frontmost application exists, has a bundle ID, and that ID is monitored. */
  predicate IsMonitoredFrontmost(front: Option<RunningApp>) {
    front.Some? && front.value.bundleIdentifier.Some?
    && Contains(SocialAppBundleIDs, front.value.bundleIdentifier.value)
  }

  /** The delay, in milliseconds, between the key press and the screenshot. */
  const CaptureDelayMs: nat := 200

  /** What a key press makes the manager do, in order. */
  datatype Action = FrontmostAppQueried | CaptureScheduled(delayMs: nat)

  /** The number of times `a` occurs in `s`. */
  function Count(s: seq<Action>, a: Action): (n: nat)
    ensures n <= |s|
    ensures n == 0 <==> a !in s
    decreases |s|
  {
    if s == [] then 0 else (if s[0] == a then 1 else 0) + Count(s[1..], a)
  }

  /**
   * `checkCurrentAppAndScreenshot`: query the frontmost app once, and schedule
   * one delayed capture when its bundle ID is monitored.
   */
  function CheckCurrentAppAndScreenshot(front: Option<RunningApp>): (actions: seq<Action>)
    ensures |actions| >= 1 && actions[0] == FrontmostAppQueried
    ensures Count(actions, FrontmostAppQueried) == 1
    ensures CaptureScheduled(CaptureDelayMs) in actions <==> IsMonitoredFrontmost(front)
    ensures forall a :: a in actions ==> a == FrontmostAppQueried || a == CaptureScheduled(CaptureDelayMs)
    ensures Count(actions, CaptureScheduled(CaptureDelayMs)) <= 1
  {
    match front
    case None => [FrontmostAppQueried]
    case Some(app) =>
      match app.bundleIdentifier
      case None => [FrontmostAppQueried]
      case Some(bundleID) =>
        if Contains(SocialAppBundleIDs, bundleID)
        then [FrontmostAppQueried, CaptureScheduled(CaptureDelayMs)]
        else [FrontmostAppQueried]
  }

  /**
   * `handleKeyPress`: the actions one key-down event causes, given the
   * frontmost application at that moment.
   */
  function HandleKeyPress(e: KeyEvent, front: Option<RunningApp>): (actions: seq<Action>)
    ensures e.keyCode != ReturnKeyCode ==> actions == []
    ensures actions != [] <==> Qualifies(e)
    ensures Count(actions, FrontmostAppQueried) == (if Qualifies(e) then 1 else 0)
    ensures (exists d :: CaptureScheduled(d) in actions) <==> Qualifies(e) && IsMonitoredFrontmost(front)
    ensures Qualifies(e) ==> actions == CheckCurrentAppAndScreenshot(front)
  {
    match Classify(e)
    case Some(CommandReturn) => CheckCurrentAppAndScreenshot(front)
    case Some(StandardReturn) => CheckCurrentAppAndScreenshot(front)
    case None => []
  }

  /** Shift+Return is ignored, with or without a monitored app in front. */
  lemma ShiftReturnIgnored(front: Option<RunningApp>)
    ensures HandleKeyPress(KeyEvent(ReturnKeyCode, false, true), front) == []
  {
  }

  /** Shift+Command+Return qualifies, because Command is tested first. */
  lemma ShiftCommandReturnQualifies(front: Option<RunningApp>)
    ensures Classify(KeyEvent(ReturnKeyCode, true, true)) == Some(CommandReturn)
    ensures HandleKeyPress(KeyEvent(ReturnKeyCode, true, true), front) == CheckCurrentAppAndScreenshot(front)
  {
  }

  /** Plain Return in WhatsApp schedules one capture after the fixed delay. */
  lemma WhatsAppReturnSchedulesCapture(name: Option<string>)
    ensures HandleKeyPress(KeyEvent(ReturnKeyCode, false, false), Some(RunningApp(Some("net.whatsapp.WhatsApp"), name)))
            == [FrontmostAppQueried, CaptureScheduled(CaptureDelayMs)]
  {
    assert SocialAppBundleIDs[2] == "net.whatsapp.WhatsApp";
  }

  /** Plain Return in Finder, or in WhatsApp under a differently cased ID, schedules nothing. */
  lemma UnlistedAppSchedulesNothing(name: Option<string>)
    ensures HandleKeyPress(KeyEvent(ReturnKeyCode, false, false), Some(RunningApp(Some("com.apple.Finder"), name)))
            == [FrontmostAppQueried]
    ensures HandleKeyPress(KeyEvent(ReturnKeyCode, false, false), Some(RunningApp(Some("net.whatsapp.whatsapp"), name)))
            == [FrontmostAppQueried]
  {
  }

  // ---------------------------------------------------------------------
  // Geometry and the accessibility tree

  datatype Point = Point(x: int, y: int)
  datatype Size = Size(width: int, height: int)
  datatype Rect = Rect(origin: Point, size: Size)

  const ZeroPoint := Point(0, 0)
  const ZeroSize := Size(0, 0)

  /** The rectangle captured when no focused window can be located. */
  const FallbackRect := Rect(Point(0, 0), Size(400, 400))

  /** An accessibility element (application or window). */
  datatype UIElement = UIElement(id: nat)

  /** An attribute value as `AXValueGetValue` sees it. */
  datatype AXValue = PointValue(point: Point) | SizeValue(size: Size) | OtherValue

  datatype AXError = AXSuccess | AXFailure(code: int)

  /** What `AXUIElementCopyAttributeValue` reports: an error code and the value it wrote, if any. */
  datatype AXCopy<T> = AXCopy(error: AXError, value: Option<T>)

  /**
   * The four attribute queries the lookup makes: the focused application of
   * the system-wide element, and the focused window, position and size of an
   * element.
   */
  datatype Accessibility = Accessibility(
    focusedApplication: AXCopy<UIElement>,
    focusedWindow: UIElement -> AXCopy<UIElement>,
    position: UIElement -> AXCopy<AXValue>,
    size: UIElement -> AXCopy<AXValue>)

  /** A lookup that must succeed: a success code and a value written. */
  function Found<T>(c: AXCopy<T>): (r: Option<T>)
    ensures r.Some? <==> c.error == AXSuccess && c.value.Some?
    ensures r.Some? ==> c.value == r
  {
    if c.error.AXSuccess? then c.value else None
  }

  /** A best-effort position query: a success code and a point in the value. */
  function PointQuery(c: AXCopy<AXValue>): (r: Option<Point>)
    ensures r.Some? <==> c.error == AXSuccess && c.value.Some? && c.value.value.PointValue?
    ensures r.Some? ==> c.value == Some(PointValue(r.value))
  {
    if c.error.AXSuccess? && c.value.Some? && c.value.value.PointValue? then Some(c.value.value.point) else None
  }

  /** A best-effort size query: a success code and a size in the value. */
  function SizeQuery(c: AXCopy<AXValue>): (r: Option<Size>)
    ensures r.Some? <==> c.error == AXSuccess && c.value.Some? && c.value.value.SizeValue?
    ensures r.Some? ==> c.value == Some(SizeValue(r.value))
  {
    if c.error.AXSuccess? && c.value.Some? && c.value.value.SizeValue? then Some(c.value.value.size) else None
  }

  /** The focused window of the focused application, when both lookups succeed. */
  function FocusedWindow(ax: Accessibility): (w: Option<UIElement>)
    ensures w.None? <==> Found(ax.focusedApplication).None?
                         || Found(ax.focusedWindow(Found(ax.focusedApplication).value)).None?
    ensures w.Some? ==> w == ax.focusedWindow(Found(ax.focusedApplication).value).value
  {
    match Found(ax.focusedApplication)
    case None => None
    case Some(app) => Found(ax.focusedWindow(app))
  }

  /**
   * The frame `getFocusedWindowFrame` reports: none when the window is not
   * found, otherwise its position and size, each zero where its own query
   * failed.
   */
  function LocatedFrame(ax: Accessibility): (r: Option<Rect>)
    ensures r.None? <==> FocusedWindow(ax).None?
    ensures r.Some? && PointQuery(ax.position(FocusedWindow(ax).value)).None? ==> r.value.origin == ZeroPoint
    ensures r.Some? && PointQuery(ax.position(FocusedWindow(ax).value)).Some? ==>
              r.value.origin == PointQuery(ax.position(FocusedWindow(ax).value)).value
    ensures r.Some? && SizeQuery(ax.size(FocusedWindow(ax).value)).None? ==> r.value.size == ZeroSize
    ensures r.Some? && SizeQuery(ax.size(FocusedWindow(ax).value)).Some? ==>
              r.value.size == SizeQuery(ax.size(FocusedWindow(ax).value)).value
  {
    match FocusedWindow(ax)
    case None => None
    case Some(win) => Some(Rect(PointQuery(ax.position(win)).GetOr(ZeroPoint),
                                SizeQuery(ax.size(win)).GetOr(ZeroSize)))
  }

  /** The frame is absent exactly when the application lookup or the window lookup fails. */
  lemma LocatedFrameAbsent(ax: Accessibility)
    ensures LocatedFrame(ax).None? <==> Found(ax.focusedApplication).None?
                                        || Found(ax.focusedWindow(Found(ax.focusedApplication).value)).None?
  {
  }

  /**
   * Once the window is found, each half of the frame depends only on its own
   * query: a failed position query zeroes the origin, a failed size query
   * zeroes the size, and a successful one is copied.
   */
  lemma LocatedFrameComponents(ax: Accessibility, win: UIElement)
    requires FocusedWindow(ax) == Some(win)
    ensures LocatedFrame(ax).Some?
    ensures LocatedFrame(ax).value.origin == if PointQuery(ax.position(win)).Some? then PointQuery(ax.position(win)).value else ZeroPoint
    ensures LocatedFrame(ax).value.size == if SizeQuery(ax.size(win)).Some? then SizeQuery(ax.size(win)).value else ZeroSize
  {
  }

  /** The rectangle `takeScreenshot` captures: the located frame, or the fallback. */
  function CaptureRect(frame: Option<Rect>): (r: Rect)
    ensures frame.Some? ==> r == frame.value
    ensures frame.None? ==> r == Rect(Point(0, 0), Size(400, 400))
  {
    frame.GetOr(FallbackRect)
  }

  /** A failing window lookup makes the capture use exactly {0, 0, 400, 400}. */
  lemma MissingWindowUsesFallback(ax: Accessibility)
    requires Found(ax.focusedApplication).Some?
    requires Found(ax.focusedWindow(Found(ax.focusedApplication).value)).None?
    ensures CaptureRect(LocatedFrame(ax)) == Rect(Point(0, 0), Size(400, 400))
  {
  }

  /**
   * `AXValueGetValue` into an inout point: the point is written when the
   * value holds one, and left as it was otherwise.
   */
  function GetPointValue(v: Option<AXValue>, current: Point): (p: Point)
    ensures v == Some(PointValue(p)) || p == current
    ensures v.Some? && v.value.PointValue? ==> p == v.value.point
  {
    if v.Some? && v.value.PointValue? then v.value.point else current
  }

  /** `AXValueGetValue` into an inout size, likewise. */
  function GetSizeValue(v: Option<AXValue>, current: Size): (s: Size)
    ensures v == Some(SizeValue(s)) || s == current
    ensures v.Some? && v.value.SizeValue? ==> s == v.value.size
  {
    if v.Some? && v.value.SizeValue? then v.value.size else current
  }

  // ---------------------------------------------------------------------
  // Screenshot files

  type Bytes = seq<bv8>

  const FileNamePrefix := "SocialCap_"
  const FileNameSuffix := ".png"

  /** The file name of a screenshot taken at `timestamp` seconds since 1970. */
  function ScreenshotFileName(timestamp: int): (name: string)
    ensures |name| >= |FileNamePrefix| + 1 + |FileNameSuffix|
    ensures name[..|FileNamePrefix|] == "SocialCap_"
    ensures name[|name| - |FileNameSuffix|..] == ".png"
    ensures name[|FileNamePrefix|..|name| - |FileNameSuffix|] == IntToDecimal(timestamp)
  {
    FileNamePrefix + IntToDecimal(timestamp) + FileNameSuffix
  }

  /** Reads the timestamp back out of a screenshot file name. */
  function ParseScreenshotFileName(name: string): (r: Option<int>)
  {
    if |name| >= |FileNamePrefix| + |FileNameSuffix|
       && name[..|FileNamePrefix|] == FileNamePrefix
       && name[|name| - |FileNameSuffix|..] == FileNameSuffix
    then ParseInt(name[|FileNamePrefix|..|name| - |FileNameSuffix|])
    else None
  }

  lemma ScreenshotFileNameRoundTrip(timestamp: int)
    ensures ParseScreenshotFileName(ScreenshotFileName(timestamp)) == Some(timestamp)
  {
    IntDecimalRoundTrip(timestamp);
  }

  /** Two screenshots get the same file name exactly when their timestamps are equal. */
  lemma ScreenshotFileNameInjective(t1: int, t2: int)
    ensures ScreenshotFileName(t1) == ScreenshotFileName(t2) <==> t1 == t2
  {
    if ScreenshotFileName(t1) == ScreenshotFileName(t2) {
      ScreenshotFileNameRoundTrip(t1);
      ScreenshotFileNameRoundTrip(t2);
    }
  }

  /** An image the capture service returns, and the image it is converted to. */
  datatype CGImage = CGImage(id: nat)
  datatype NSImage = NSImage(id: nat)

  /**
   * `saveImageToDesktop`: encode the image (TIFF, bitmap, PNG, any step may
   * fail), and write the PNG as SocialCap_<timestamp>.png into the desktop
   * directory, whose contents are given as a map from file name to bytes. A
   * failed encoding or write leaves the directory as it was.
   */
  function SaveImageToDesktop(desktop: map<string, Bytes>, image: NSImage,
                              pngData: NSImage -> Option<Bytes>, timestamp: int,
                              writeSucceeds: bool): (after: map<string, Bytes>)
    ensures pngData(image).Some? && writeSucceeds ==>
              ScreenshotFileName(timestamp) in after && after[ScreenshotFileName(timestamp)] == pngData(image).value
    ensures forall f :: f in desktop && f != ScreenshotFileName(timestamp) ==> f in after && after[f] == desktop[f]
    ensures forall f :: f in after ==> f in desktop || f == ScreenshotFileName(timestamp)
    ensures pngData(image).None? || !writeSucceeds ==> after == desktop
  {
    match pngData(image)
    case None => desktop
    case Some(png) =>
      var fileName := ScreenshotFileName(timestamp);
      if writeSucceeds then desktop[fileName := png] else desktop
  }

  /**
   * Two saves in the same second write the same file: the second overwrites
   * the first, and the directory gains at most one file.
   */
  lemma SameSecondOverwrites(desktop: map<string, Bytes>, first: NSImage, second: NSImage,
                             pngData: NSImage -> Option<Bytes>, timestamp: int)
    requires pngData(first).Some? && pngData(second).Some?
    ensures var after := SaveImageToDesktop(SaveImageToDesktop(desktop, first, pngData, timestamp, true),
                                            second, pngData, timestamp, true);
            after == desktop[ScreenshotFileName(timestamp) := pngData(second).value]
  {
  }

  /** Saves in different seconds keep both files, each with its own image. */
  lemma DistinctSecondsKeepBoth(desktop: map<string, Bytes>, first: NSImage, second: NSImage,
                                pngData: NSImage -> Option<Bytes>, t1: int, t2: int)
    requires pngData(first).Some? && pngData(second).Some?
    requires t1 != t2
    ensures var after := SaveImageToDesktop(SaveImageToDesktop(desktop, first, pngData, t1, true),
                                            second, pngData, t2, true);
            ScreenshotFileName(t1) in after && after[ScreenshotFileName(t1)] == pngData(first).value
            && ScreenshotFileName(t2) in after && after[ScreenshotFileName(t2)] == pngData(second).value
  {
    ScreenshotFileNameInjective(t1, t2);
  }

  /** The OS services one screenshot uses, each of which may fail. */
  datatype CaptureServices = CaptureServices(
    captureImage: Rect -> Option<CGImage>,
    asNSImage: CGImage -> Option<NSImage>,
    pngData: NSImage -> Option<Bytes>,
    writeSucceeds: bool)

  // ---------------------------------------------------------------------
  // The manager object

  /** The opaque token the OS returns for an installed global monitor. */
  datatype MonitorHandle = MonitorHandle(token: nat)

  class ActivityManager {
    /** The installed global key-down monitor, if any. */
    var globalMonitor: Option<MonitorHandle>

    predicate IsMonitoring()
      reads this
    {
      globalMonitor.Some?
    }

    constructor ()
      ensures !IsMonitoring()
    {
      globalMonitor := None;
    }

    /**
     * `startMonitoring`: when no monitor is installed, asks the OS to install
     * one and keeps the handle it returns (`installed`, possibly none); when
     * a monitor is installed, does nothing.
     */
    method StartMonitoring(installed: Option<MonitorHandle>) returns (installRequested: bool)
      modifies this
      ensures installRequested <==> old(globalMonitor).None?
      ensures old(globalMonitor).Some? ==> globalMonitor == old(globalMonitor)
      ensures old(globalMonitor).None? ==> globalMonitor == installed
    {
      if globalMonitor.Some? {
        return false;
      }
      globalMonitor := installed;
      installRequested := true;
    }

    /**
     * `stopMonitoring`: removes the installed monitor, whose handle is
     * returned as the one handed to `removeMonitor`, and clears the field;
     * when none is installed, does nothing.
     */
    method StopMonitoring() returns (removed: Option<MonitorHandle>)
      modifies this
      ensures removed == old(globalMonitor)
      ensures globalMonitor.None?
    {
      removed := None;
      if globalMonitor.Some? {
        var monitor := globalMonitor.value;
        removed := Some(monitor);
        globalMonitor := None;
      }
    }

    /**
     * The installed monitor's callback: a key-down event reaches
     * `handleKeyPress` only while a monitor is installed.
     */
    method OnKeyDown(e: KeyEvent, front: Option<RunningApp>) returns (actions: seq<Action>)
      ensures !IsMonitoring() ==> actions == []
      ensures IsMonitoring() ==> actions == HandleKeyPress(e, front)
    {
      if globalMonitor.None? {
        return [];
      }
      actions := HandleKeyPress(e, front);
    }

    /**
     * `getFocusedWindowFrame`: the focused application of the system-wide
     * element, then its focused window, must both be found; the position
     * and size start at zero and are overwritten by queries that succeed.
     */
    method GetFocusedWindowFrame(ax: Accessibility) returns (frame: Option<Rect>)
      ensures frame == LocatedFrame(ax)
    {
      var focusedAppRef := ax.focusedApplication;
      if !(focusedAppRef.error.AXSuccess? && focusedAppRef.value.Some?) {
        return None;
      }
      var appElement := focusedAppRef.value.value;

      var focusedWindowRef := ax.focusedWindow(appElement);
      if !(focusedWindowRef.error.AXSuccess? && focusedWindowRef.value.Some?) {
        return None;
      }
      var windowElement := focusedWindowRef.value.value;

      var positionRef := ax.position(windowElement);
      var position := ZeroPoint;
      if positionRef.error.AXSuccess? {
        position := GetPointValue(positionRef.value, position);
      }

      var sizeRef := ax.size(windowElement);
      var size := ZeroSize;
      if sizeRef.error.AXSuccess? {
        size := GetSizeValue(sizeRef.value, size);
      }

      frame := Some(Rect(position, size));
    }

    /**
     * `takeScreenshot`, run once the delay has passed: locate the frame (or
     * fall back), capture that rectangle, convert it, and save it under the
     * current timestamp. Returns the rectangle asked for and the desktop
     * directory afterwards; any failing step leaves the directory unchanged.
     */
    method TakeScreenshot(ax: Accessibility, os: CaptureServices, timestamp: int,
                          desktop: map<string, Bytes>)
      returns (rect: Rect, after: map<string, Bytes>)
      ensures rect == CaptureRect(LocatedFrame(ax))
      ensures LocatedFrame(ax).None? ==> rect == FallbackRect
      ensures after == (if os.captureImage(rect).Some? && os.asNSImage(os.captureImage(rect).value).Some?
                        then SaveImageToDesktop(desktop, os.asNSImage(os.captureImage(rect).value).value,
                                                os.pngData, timestamp, os.writeSucceeds)
                        else desktop)
    {
      var focused := GetFocusedWindowFrame(ax);
      rect := CaptureRect(focused);
      after := desktop;
      var cgImage := os.captureImage(rect);
      if cgImage.None? {
        return;
      }
      var nsImage := os.asNSImage(cgImage.value);
      if nsImage.Some? {
        after := SaveImageToDesktop(desktop, nsImage.value, os.pngData, timestamp, os.writeSucceeds);
      }
    }
  }
}
