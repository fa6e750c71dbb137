/**
 * The classifications produced each tick and the lifecycle events that name
 * the user's scripts (isZoomUsingCamera/Model.swift, "Types and enums").
 */
module SampleResults {

  /** What one camera sample says about the conferencing client. */
  datatype CameraSampleResult = NoResult | UsingCamera | ZoomNotRunning | NotUsingCamera | ErrorSampling

  /** What one screen-sharing sample says. */
  datatype ScreenSharingSampleResult = NoResult | NotScreenSharing | ScreenSharing

  /** Whether the client's main process is running. */
  datatype ZoomProcessResult = NoResult | AppRunning | AppNotRunning

  /** The events a user script can be attached to. */
  datatype CustomScriptEvent =
    | AppStarted | AppEnded
    | CameraEnabled | CameraDisabled
    | ScreenSharingStarted | ScreenSharingEnded

  /** The status line shown for a camera classification; never blank. */
  function CameraText(r: CameraSampleResult): (t: string)
    ensures |t| > 0
  {
    match r
    case NoResult => "No result"
    case UsingCamera => "Zoom is USING the camera"
    case NotUsingCamera => "Zoom is NOT USING the camera"
    case ZoomNotRunning => "Zoom does not appear to be running"
    case ErrorSampling => "Error sampling"
  }

  /** Different camera classifications are never shown with the same text. */
  lemma CameraTextInjective(a: CameraSampleResult, b: CameraSampleResult)
    ensures CameraText(a) == CameraText(b) ==> a == b
  {
  }

  /** The screen-sharing status line: blank exactly before the first sample. */
  function ScreenSharingText(r: ScreenSharingSampleResult): (t: string)
    ensures t == "" <==> r.NoResult?
  {
    match r
    case NotScreenSharing => "Not screen sharing"
    case ScreenSharing => "Screen sharing"
    case NoResult => ""
  }

  /** Different screen-sharing classifications are shown with different texts. */
  lemma ScreenSharingTextInjective(a: ScreenSharingSampleResult, b: ScreenSharingSampleResult)
    ensures ScreenSharingText(a) == ScreenSharingText(b) ==> a == b
  {
  }

  /** The directory under the user's home that holds the event scripts. */
  const ScriptDirectory := "~/.iszoomusingcamera/"

  /** The file name, without `.sh`, of each event's script. */
  function ScriptName(e: CustomScriptEvent): (n: string)
    ensures n != [] && '/' !in n
  {
    match e
    case AppStarted => "app_started"
    case AppEnded => "app_ended"
    case CameraEnabled => "camera_enabled"
    case CameraDisabled => "camera_disabled"
    case ScreenSharingStarted => "screen_sharing_started"
    case ScreenSharingEnded => "screen_sharing_ended"
  }

  /** The fixed script path run for each event, such as `~/.iszoomusingcamera/app_started.sh`. */
  function ScriptPath(e: CustomScriptEvent): (p: string)
    ensures |p| > |ScriptDirectory| + 3
    ensures p[..|ScriptDirectory|] == ScriptDirectory
    ensures p[|p| - 3..] == ".sh"
    ensures '/' !in p[|ScriptDirectory|..]
  {
    var p := ScriptDirectory + ScriptName(e) + ".sh";
    assert p[|ScriptDirectory|..] == ScriptName(e) + ".sh";
    p
  }

  /** Different events run different scripts. */
  lemma ScriptPathInjective(a: CustomScriptEvent, b: CustomScriptEvent)
    ensures ScriptPath(a) == ScriptPath(b) ==> a == b
  {
    if ScriptPath(a) == ScriptPath(b) {
      var n := |ScriptDirectory|;
      assert ScriptPath(a)[n..|ScriptPath(a)| - 3] == ScriptName(a);
      assert ScriptPath(b)[n..|ScriptPath(b)| - 3] == ScriptName(b);
    }
  }
}
