/**
 * The transition rules of the three observed properties of `Model`
 * (isZoomUsingCamera/Model.swift): from the stored value and the newly
 * assigned one, which of enableDND, disableDND and runCustomScript(forEvent:)
 * the property observer calls, and what commands each call issues under the
 * user's preferences.
 */
module Reactions {
  import opened Effects
  import opened SampleResults

  /** A call a property observer makes. */
  datatype Reaction = EnableDND | DisableDND | RunCustomScript(event: CustomScriptEvent)

  /** The preferences the calls consult; `newerThanMacOS11_4` is "the OS is newer than macOS 11.4". */
  datatype Settings = Settings(dndToggle: bool, runCustomScripts: bool, newerThanMacOS11_4: bool)

  const DndOnShortcut := "dndon"
  const DndOffShortcut := "dndoff"

  /** The commands one call issues. */
  function Perform(a: Reaction, s: Settings): (r: seq<Command>)
    ensures |r| <= 1
    ensures a.RunCustomScript? ==> (r != [] <==> s.runCustomScripts)
    ensures !a.RunCustomScript? ==> (r != [] <==> s.dndToggle && s.newerThanMacOS11_4)
    ensures forall c | c in r :: c == match a
      case EnableDND => RunShortcut(DndOnShortcut)
      case DisableDND => RunShortcut(DndOffShortcut)
      case RunCustomScript(e) => BashScript(ScriptPath(e))
  {
    match a
    case EnableDND =>
      if !s.dndToggle then [] else if !s.newerThanMacOS11_4 then [] else [RunShortcut(DndOnShortcut)]
    case DisableDND =>
      if !s.dndToggle then [] else if !s.newerThanMacOS11_4 then [] else [RunShortcut(DndOffShortcut)]
    case RunCustomScript(e) =>
      if !s.runCustomScripts then [] else [BashScript(ScriptPath(e))]
  }

  /** The commands a sequence of calls issues, in order. */
  function PerformAll(calls: seq<Reaction>, s: Settings): (r: seq<Command>)
    ensures |r| <= |calls|
    ensures !(s.dndToggle && s.newerThanMacOS11_4) ==> forall c | c in r :: c.BashScript?
    ensures !s.runCustomScripts ==> forall c | c in r :: c.RunShortcut?
    ensures s.dndToggle && s.newerThanMacOS11_4 && s.runCustomScripts ==> |r| == |calls|
    decreases |calls|
  {
    if calls == [] then [] else Perform(calls[0], s) + PerformAll(calls[1..], s)
  }

  lemma {:induction false} PerformAllAppend(a: seq<Reaction>, b: seq<Reaction>, s: Settings)
    ensures PerformAll(a + b, s) == PerformAll(a, s) + PerformAll(b, s)
    decreases |a|
  {
    if a == [] {
      assert a + b == b;
    } else {
      assert (a + b)[0] == a[0] && (a + b)[1..] == a[1..] + b;
      PerformAllAppend(a[1..], b, s);
    }
  }

  // ---- the camera observer (cameraSampleResult's didSet)

  /** No camera call is made after no sample, after "not running", or when nothing changed. */
  predicate CameraSuppressed(was: CameraSampleResult, now: CameraSampleResult)
  {
    was.NoResult? || was.ZoomNotRunning? || was == now
  }

  function CameraReactions(was: CameraSampleResult, now: CameraSampleResult): (r: seq<Reaction>)
    ensures |r| <= 2
    ensures r == [] <==> CameraSuppressed(was, now) || now.ErrorSampling? || now.NoResult?
    ensures EnableDND in r <==> !CameraSuppressed(was, now) && now.UsingCamera?
    ensures DisableDND in r <==> !CameraSuppressed(was, now) && (now.NotUsingCamera? || now.ZoomNotRunning?)
    ensures r != [] ==> r[0] == EnableDND || r[0] == DisableDND
  {
    if was.NoResult? || was.ZoomNotRunning? || was == now then []
    else
      match now
      case UsingCamera => [EnableDND, RunCustomScript(CameraEnabled)]
      case NotUsingCamera => [DisableDND, RunCustomScript(CameraDisabled)]
      case ZoomNotRunning => [DisableDND]
      case _ => []
  }

  /** The camera table entry by entry, order included. */
  lemma CameraTable(was: CameraSampleResult, now: CameraSampleResult)
    requires !CameraSuppressed(was, now)
    ensures now.UsingCamera? ==> CameraReactions(was, now) == [EnableDND, RunCustomScript(CameraEnabled)]
    ensures now.NotUsingCamera? ==> CameraReactions(was, now) == [DisableDND, RunCustomScript(CameraDisabled)]
    ensures now.ZoomNotRunning? ==> CameraReactions(was, now) == [DisableDND]
    ensures now.ErrorSampling? || now.NoResult? ==> CameraReactions(was, now) == []
  {
  }

  // ---- the screen-sharing observer (screenShareSampleResult's didSet)

  predicate ScreenSharingSuppressed(was: ScreenSharingSampleResult, now: ScreenSharingSampleResult)
  {
    was == now || was.NoResult?
  }

  function ScreenSharingReactions(was: ScreenSharingSampleResult, now: ScreenSharingSampleResult): (r: seq<Reaction>)
    ensures |r| <= 1
    ensures r == [] <==> ScreenSharingSuppressed(was, now) || now.NoResult?
    ensures forall a | a in r :: a.RunCustomScript?
    ensures r == [RunCustomScript(ScreenSharingStarted)] <==> !ScreenSharingSuppressed(was, now) && now.ScreenSharing?
    ensures r == [RunCustomScript(ScreenSharingEnded)] <==> !ScreenSharingSuppressed(was, now) && now.NotScreenSharing?
  {
    if was == now || was.NoResult? then []
    else
      match now
      case ScreenSharing => [RunCustomScript(ScreenSharingStarted)]
      case NotScreenSharing => [RunCustomScript(ScreenSharingEnded)]
      case _ => []
  }

  // ---- the process observer (zoomProcess's didSet)

  predicate ProcessSuppressed(was: ZoomProcessResult, now: ZoomProcessResult)
  {
    was.NoResult? || was == now
  }

  function ProcessReactions(was: ZoomProcessResult, now: ZoomProcessResult): (r: seq<Reaction>)
    ensures |r| <= 1
    ensures r == [] <==> ProcessSuppressed(was, now) || now.NoResult?
    ensures forall a | a in r :: a.RunCustomScript?
    ensures r == [RunCustomScript(AppStarted)] <==> !ProcessSuppressed(was, now) && now.AppRunning?
    ensures r == [RunCustomScript(AppEnded)] <==> !ProcessSuppressed(was, now) && now.AppNotRunning?
  {
    if was.NoResult? || was == now then []
    else
      match now
      case AppRunning => [RunCustomScript(AppStarted)]
      case AppNotRunning => [RunCustomScript(AppEnded)]
      case _ => []
  }

  // ---- a channel over time

  /** The value a channel ends up storing and every call its observer made. */
  datatype Outcome<T> = Outcome(stored: T, fired: seq<Reaction>)

  /** Assign the values `observations` one after another to a channel whose observer is `react`. */
  function Replay<T>(react: (T, T) -> seq<Reaction>, stored: T, observations: seq<T>): (r: Outcome<T>)
    ensures observations == [] ==> r == Outcome(stored, [])
    ensures observations != [] ==> r.stored == observations[|observations| - 1]
    decreases |observations|
  {
    if observations == [] then Outcome(stored, [])
    else
      var rest := Replay(react, observations[0], observations[1..]);
      Outcome(rest.stored, react(stored, observations[0]) + rest.fired)
  }

  /** Replaying two stretches one after the other is replaying them together. */
  lemma {:induction false} ReplayAppend<T>(react: (T, T) -> seq<Reaction>, stored: T, a: seq<T>, b: seq<T>)
    ensures Replay(react, stored, a + b)
         == Outcome(Replay(react, Replay(react, stored, a).stored, b).stored,
                    Replay(react, stored, a).fired + Replay(react, Replay(react, stored, a).stored, b).fired)
    decreases |a|
  {
    if a == [] {
      assert a + b == b;
    } else {
      assert (a + b)[0] == a[0] && (a + b)[1..] == a[1..] + b;
      ReplayAppend(react, a[0], a[1..], b);
    }
  }

  /** When an observer ignores equal values, an observation repeated at once fires nothing more. */
  lemma {:induction false} ReplayIgnoresRepeats<T>(react: (T, T) -> seq<Reaction>, stored: T, a: seq<T>, x: T, b: seq<T>)
    requires forall y :: react(y, y) == []
    ensures Replay(react, stored, a + [x, x] + b) == Replay(react, stored, a + [x] + b)
    decreases |a|
  {
    if a == [] {
      assert a + [x, x] + b == [x] + ([x] + b);
      assert a + [x] + b == [x] + b;
      assert ([x] + ([x] + b))[1..] == [x] + b;
      assert ([x] + b)[1..] == b;
      assert react(x, x) == [];
    } else {
      assert (a + [x, x] + b)[0] == a[0] && (a + [x, x] + b)[1..] == a[1..] + [x, x] + b;
      assert (a + [x] + b)[0] == a[0] && (a + [x] + b)[1..] == a[1..] + [x] + b;
      ReplayIgnoresRepeats(react, a[0], a[1..], x, b);
    }
  }

  /** Observing the stored value over and over fires nothing. */
  lemma {:induction false} ReplaySteady<T>(react: (T, T) -> seq<Reaction>, x: T, observations: seq<T>)
    requires forall y :: react(y, y) == []
    requires forall i | 0 <= i < |observations| :: observations[i] == x
    ensures Replay(react, x, observations).fired == []
    decreases |observations|
  {
    if observations != [] {
      assert react(x, observations[0]) == [];
      ReplaySteady(react, x, observations[1..]);
    }
  }

  /** The first observation after the initial value only sets the baseline. */
  lemma ReplayBaseline<T>(react: (T, T) -> seq<Reaction>, initial: T, x: T, rest: seq<T>)
    requires forall y :: react(initial, y) == []
    ensures Replay(react, initial, [x] + rest).fired == Replay(react, x, rest).fired
  {
  }

  /** The three observers ignore repeats and their first observation. */
  lemma ObserversIgnoreRepeatsAndBaseline()
    ensures forall y :: CameraReactions(y, y) == [] && CameraReactions(CameraSampleResult.NoResult, y) == []
    ensures forall y :: ScreenSharingReactions(y, y) == [] && ScreenSharingReactions(ScreenSharingSampleResult.NoResult, y) == []
    ensures forall y :: ProcessReactions(y, y) == [] && ProcessReactions(ZoomProcessResult.NoResult, y) == []
  {
  }

  /** Camera samples over time: the first sets the baseline and repeats fire nothing. */
  lemma CameraReplay(a: seq<CameraSampleResult>, x: CameraSampleResult, b: seq<CameraSampleResult>)
    ensures Replay(CameraReactions, CameraSampleResult.NoResult, a + [x, x] + b)
         == Replay(CameraReactions, CameraSampleResult.NoResult, a + [x] + b)
    ensures Replay(CameraReactions, CameraSampleResult.NoResult, [x] + b).fired == Replay(CameraReactions, x, b).fired
  {
    ObserversIgnoreRepeatsAndBaseline();
    ReplayIgnoresRepeats(CameraReactions, CameraSampleResult.NoResult, a, x, b);
    ReplayBaseline(CameraReactions, CameraSampleResult.NoResult, x, b);
  }

  /** Screen-sharing samples over time: the first sets the baseline and repeats fire nothing. */
  lemma ScreenSharingReplay(a: seq<ScreenSharingSampleResult>, x: ScreenSharingSampleResult, b: seq<ScreenSharingSampleResult>)
    ensures Replay(ScreenSharingReactions, ScreenSharingSampleResult.NoResult, a + [x, x] + b)
         == Replay(ScreenSharingReactions, ScreenSharingSampleResult.NoResult, a + [x] + b)
    ensures Replay(ScreenSharingReactions, ScreenSharingSampleResult.NoResult, [x] + b).fired
         == Replay(ScreenSharingReactions, x, b).fired
  {
    ObserversIgnoreRepeatsAndBaseline();
    ReplayIgnoresRepeats(ScreenSharingReactions, ScreenSharingSampleResult.NoResult, a, x, b);
    ReplayBaseline(ScreenSharingReactions, ScreenSharingSampleResult.NoResult, x, b);
  }

  /** Process observations over time: the first (even "running") fires nothing and repeats fire nothing. */
  lemma ProcessReplay(a: seq<ZoomProcessResult>, x: ZoomProcessResult, b: seq<ZoomProcessResult>)
    ensures Replay(ProcessReactions, ZoomProcessResult.NoResult, a + [x, x] + b)
         == Replay(ProcessReactions, ZoomProcessResult.NoResult, a + [x] + b)
    ensures Replay(ProcessReactions, ZoomProcessResult.NoResult, [x] + b).fired == Replay(ProcessReactions, x, b).fired
  {
    ObserversIgnoreRepeatsAndBaseline();
    ReplayIgnoresRepeats(ProcessReactions, ZoomProcessResult.NoResult, a, x, b);
    ReplayBaseline(ProcessReactions, ZoomProcessResult.NoResult, x, b);
  }

  // ---- end to end, with every preference on and a recent OS

  /** A camera that comes on after being off turns Do Not Disturb on, then runs camera_enabled.sh. */
  lemma CameraComesOn(s: Settings)
    requires s.dndToggle && s.runCustomScripts && s.newerThanMacOS11_4
    ensures PerformAll(CameraReactions(NotUsingCamera, UsingCamera), s)
         == [RunShortcut("dndon"), BashScript("~/.iszoomusingcamera/camera_enabled.sh")]
  {
    assert ScriptPath(CameraEnabled) == "~/.iszoomusingcamera/camera_enabled.sh";
    assert [EnableDND, RunCustomScript(CameraEnabled)][1..] == [RunCustomScript(CameraEnabled)];
  }

  /** A client that quits while its camera is on or off turns Do Not Disturb off and runs no script. */
  lemma ClientQuits(was: CameraSampleResult, s: Settings)
    requires was.UsingCamera? || was.NotUsingCamera? || was.ErrorSampling?
    requires s.dndToggle && s.newerThanMacOS11_4
    ensures PerformAll(CameraReactions(was, ZoomNotRunning), s) == [RunShortcut("dndoff")]
  {
  }
}
