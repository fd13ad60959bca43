/**
 * The PermissionManager: two flags recording whether the process was last
 * found trusted for accessibility and allowed to record the screen. The OS
 * answers are inputs; the calls the manager makes to the OS are returned as
 * a trace.
 */
module Permissions {
  import opened Wrappers

  /** The OS calls the manager makes. */
  datatype PermissionCall =
    | IsProcessTrusted(prompt: bool)  // AXIsProcessTrustedWithOptions, with the prompt option
    | PreflightScreenCapture          // CGPreflightScreenCaptureAccess
    | RequestScreenCapture            // CGRequestScreenCaptureAccess
    | OpenURL(url: string)            // NSWorkspace.open

  /** The deep link into the screen-recording pane of the privacy settings. */
  const ScreenCaptureSettingsURL := "x-apple.systempreferences:com.apple.preference.security?Privacy_ScreenCapture"

  class PermissionManager {
    var isAccessibilityEnable: bool
    var isScreenRecordingEnable: bool

    /** Both flags start false. */
    constructor ()
      ensures !isAccessibilityEnable && !isScreenRecordingEnable
      ensures !ArePermissionsGranted()
    {
      isAccessibilityEnable := false;
      isScreenRecordingEnable := false;
    }

    /** Granted only while both flags are set. */
    function ArePermissionsGranted(): (granted: bool)
      reads this
      ensures !isAccessibilityEnable ==> !granted
      ensures !isScreenRecordingEnable ==> !granted
      ensures isAccessibilityEnable && isScreenRecordingEnable ==> granted
    {
      isAccessibilityEnable && isScreenRecordingEnable
    }

    /**
     * `checkAccessibility`: asks the OS, with the prompt option set, whether
     * the process is trusted, and returns its answer unchanged. `trusted`
     * stands for the OS's answer to a query with a given prompt option.
     */
    method CheckAccessibility(trusted: bool -> bool) returns (isTrusted: bool, calls: seq<PermissionCall>)
      ensures isTrusted == trusted(true)
      ensures calls == [IsProcessTrusted(true)]
    {
      var prompt := true;
      calls := [IsProcessTrusted(prompt)];
      isTrusted := trusted(prompt);
    }

    /**
     * `checkScreenRecording`: true when the preflight check passes; otherwise
     * a request for access is issued and the answer is false for this call.
     */
    method CheckScreenRecording(preflight: bool) returns (granted: bool, calls: seq<PermissionCall>)
      ensures granted <==> preflight
      ensures |calls| == (if preflight then 1 else 2) && calls[0] == PreflightScreenCapture
      ensures RequestScreenCapture in calls <==> !preflight
      ensures RequestScreenCapture in calls ==> !granted
    {
      calls := [PreflightScreenCapture];
      if preflight {
        granted := true;
      } else {
        calls := calls + [RequestScreenCapture];
        granted := false;
      }
    }

    /**
     * `askForPermissions`: overwrites the accessibility flag with the trust
     * check's answer, then the screen-recording flag with the screen
     * recording check's answer.
     */
    method AskForPermissions(trusted: bool -> bool, preflight: bool) returns (calls: seq<PermissionCall>)
      modifies this
      ensures isAccessibilityEnable == trusted(true)
      ensures isScreenRecordingEnable == preflight
      ensures ArePermissionsGranted() <==> trusted(true) && preflight
      ensures calls == [IsProcessTrusted(true), PreflightScreenCapture] + (if preflight then [] else [RequestScreenCapture])
    {
      var accessibilityCalls, screenCalls;
      isAccessibilityEnable, accessibilityCalls := CheckAccessibility(trusted);
      isScreenRecordingEnable, screenCalls := CheckScreenRecording(preflight);
      calls := accessibilityCalls + screenCalls;
    }

    /**
     * `openSettings`: opens the screen-recording settings pane when its URL
     * parses (`parseURL` stands for `URL(string:)`); the flags are not
     * touched.
     */
    method OpenSettings(parseURL: string -> Option<string>) returns (calls: seq<PermissionCall>)
      ensures parseURL(ScreenCaptureSettingsURL).None? ==> calls == []
      ensures parseURL(ScreenCaptureSettingsURL).Some? ==> calls == [OpenURL(parseURL(ScreenCaptureSettingsURL).value)]
    {
      var url := parseURL(ScreenCaptureSettingsURL);
      calls := [];
      if url.Some? {
        calls := [OpenURL(url.value)];
      }
    }
  }

  /** The combined flag is false as soon as either flag is false. */
  lemma GrantedNeedsBoth(m: PermissionManager)
    ensures m.ArePermissionsGranted() <==> m.isAccessibilityEnable && m.isScreenRecordingEnable
    ensures !m.isAccessibilityEnable || !m.isScreenRecordingEnable ==> !m.ArePermissionsGranted()
  {
  }
}
