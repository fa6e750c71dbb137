/**
 * The `Model` object of isZoomUsingCamera/Model.swift: it holds the last
 * classification of each channel, reacts to every assignment through the
 * channel's observer, owns the repeating one-second timer and the list of
 * available shortcuts. Everything it asks the OS to do is appended to the
 * ghost log `effects`.
 */
module ZoomModel {
  import opened Wrappers
  import opened Effects
  import opened SampleResults
  import opened Providers
  import Shortcuts
  import Reactions

  /** The timer fires every second. */
  const TimerIntervalSeconds: nat := 1

  /** Every field of a `Model` except its log. */
  datatype Snapshot = Snapshot(
    dndToggle: bool,
    runCustomScripts: bool,
    newerThanMacOS11_4: bool,
    canShowShortcuts: bool,
    textResult: string,
    screensharingText: string,
    timer: Option<TimerId>,
    nextTimer: TimerId,
    camera: CameraSampleResult,
    screenShare: ScreenSharingSampleResult,
    process: ZoomProcessResult,
    shortcuts: seq<string>)

  /** Logging `first`'s commands and then `second`'s is logging the commands of the pair. */
  lemma PerformPair(first: Reactions.Reaction, second: Reactions.Reaction, s: Reactions.Settings, log: seq<Effect>)
    ensures log + Shells(Reactions.Perform(first, s)) + Shells(Reactions.Perform(second, s))
         == log + Shells(Reactions.PerformAll([first, second], s))
  {
  }

  lemma PerformOne(a: Reactions.Reaction, s: Reactions.Settings)
    ensures Reactions.PerformAll([a], s) == Reactions.Perform(a, s)
  {
  }

  /**
   * The log of a run of assignments to one channel: assigning `x` after the
   * values `observations` adds exactly the commands the setter logs for the
   * step from the stored value to `x`. With the setters' postconditions this
   * makes the log of successive SetCameraSampleResult (or screen-sharing, or
   * process) calls the commands of `Replay` over the values assigned.
   */
  lemma ReplayLogStep<T>(react: (T, T) -> seq<Reactions.Reaction>, stored: T, observations: seq<T>, x: T,
                         prefs: Reactions.Settings)
    ensures var before := Reactions.Replay(react, stored, observations);
            (Shells(Reactions.PerformAll(Reactions.Replay(react, stored, observations + [x]).fired, prefs))
             == Shells(Reactions.PerformAll(before.fired, prefs)) + Shells(Reactions.PerformAll(react(before.stored, x), prefs)))
  {
    var before := Reactions.Replay(react, stored, observations);
    Reactions.ReplayAppend(react, stored, observations, [x]);
    assert [x][0] == x && [x][1..] == [];
    assert react(before.stored, x) + [] == react(before.stored, x);
    Reactions.PerformAllAppend(before.fired, react(before.stored, x), prefs);
    ShellsAppend(Reactions.PerformAll(before.fired, prefs), Reactions.PerformAll(react(before.stored, x), prefs));
  }

  class Model {
    var dndToggle: bool
    var runCustomScripts: bool
    /** Whether the OS is newer than macOS 11.4. */
    const newerThanMacOS11_4: bool
    var canShowShortcuts: bool
    var textResult: string
    var screensharingText: string
    var timer: Option<TimerId>
    /** The handle the next scheduled timer gets. */
    var nextTimer: TimerId
    var cameraSampleResult: CameraSampleResult
    var screenShareSampleResult: ScreenSharingSampleResult
    var zoomProcess: ZoomProcessResult
    var listOfAvailableShortcuts: seq<string>
    ghost var effects: seq<Effect>

    /** The model holds exactly the timers that are live. */
    ghost predicate Valid()
      reads this
    {
      TimerLedger(effects, timer, nextTimer)
    }

    function State(): Snapshot
      reads this
    {
      Snapshot(dndToggle, runCustomScripts, newerThanMacOS11_4, canShowShortcuts, textResult,
               screensharingText, timer, nextTimer, cameraSampleResult, screenShareSampleResult,
               zoomProcess, listOfAvailableShortcuts)
    }

    function Preferences(): Reactions.Settings
      reads this
    {
      Reactions.Settings(dndToggle, runCustomScripts, newerThanMacOS11_4)
    }

    /** The persisted preferences and the OS version are given. */
    constructor (dndToggle: bool, runCustomScripts: bool, newerThanMacOS11_4: bool)
      ensures Valid() && effects == []
      ensures State() == Snapshot(dndToggle, runCustomScripts, newerThanMacOS11_4, newerThanMacOS11_4,
        "No results", "Not sharing screen", None, 0, CameraSampleResult.NoResult,
        ScreenSharingSampleResult.NoResult, ZoomProcessResult.NoResult, [])
    {
      this.dndToggle := dndToggle;
      this.runCustomScripts := runCustomScripts;
      this.newerThanMacOS11_4 := newerThanMacOS11_4;
      canShowShortcuts := newerThanMacOS11_4;
      textResult := "No results";
      screensharingText := "Not sharing screen";
      timer := None;
      nextTimer := 0;
      cameraSampleResult := CameraSampleResult.NoResult;
      screenShareSampleResult := ScreenSharingSampleResult.NoResult;
      zoomProcess := ZoomProcessResult.NoResult;
      listOfAvailableShortcuts := [];
      effects := [];
    }

    /** Append the commands `cs` to the log, keeping the timer ledger. */
    method Issue(cs: seq<Command>)
      requires Valid()
      modifies this
      ensures Valid() && State() == old(State())
      ensures effects == old(effects) + Shells(cs)
    {
      LedgerAfterShells(effects, cs, timer, nextTimer);
      effects := effects + Shells(cs);
    }

    // ---- Do Not Disturb and custom scripts

    method EnableDND()
      requires Valid()
      modifies this
      ensures Valid() && State() == old(State())
      ensures effects == old(effects) + Shells(Reactions.Perform(Reactions.EnableDND, old(Preferences())))
    {
      if !dndToggle {
        Issue([]);
        return;
      }
      if !newerThanMacOS11_4 {
        Issue([]);
      } else {
        Issue([RunShortcut(Reactions.DndOnShortcut)]);
      }
    }

    method DisableDND()
      requires Valid()
      modifies this
      ensures Valid() && State() == old(State())
      ensures effects == old(effects) + Shells(Reactions.Perform(Reactions.DisableDND, old(Preferences())))
    {
      if !dndToggle {
        Issue([]);
        return;
      }
      if !newerThanMacOS11_4 {
        Issue([]);
      } else {
        Issue([RunShortcut(Reactions.DndOffShortcut)]);
      }
    }

    method RunCustomScript(event: CustomScriptEvent)
      requires Valid()
      modifies this
      ensures Valid() && State() == old(State())
      ensures effects == old(effects) + Shells(Reactions.Perform(Reactions.RunCustomScript(event), old(Preferences())))
    {
      if !runCustomScripts {
        Issue([]);
        return;
      }
      Issue([BashScript(ScriptPath(event))]);
    }

    // ---- the three observed properties

    /** Assign `cameraSampleResult`, running its observer. */
    method SetCameraSampleResult(value: CameraSampleResult)
      requires Valid()
      modifies this
      ensures Valid() && State() == old(State()).(camera := value)
      ensures effects == old(effects)
        + Shells(Reactions.PerformAll(Reactions.CameraReactions(old(cameraSampleResult), value), old(Preferences())))
    {
      var was := cameraSampleResult;
      cameraSampleResult := value;
      CameraObserver(was);
    }

    /** The body of `cameraSampleResult`'s observer, `was` being the value it replaced. */
    method CameraObserver(was: CameraSampleResult)
      requires Valid()
      modifies this
      ensures Valid() && State() == old(State())
      ensures effects == old(effects)
        + Shells(Reactions.PerformAll(Reactions.CameraReactions(was, cameraSampleResult), old(Preferences())))
    {
      ghost var prefs := Preferences();
      var now := cameraSampleResult;
      if was.NoResult? || was.ZoomNotRunning? || was == now {
        assert effects == old(effects) + Shells([]);
        return;
      }
      match now
      case UsingCamera =>
        EnableDND();
        RunCustomScript(CameraEnabled);
        PerformPair(Reactions.EnableDND, Reactions.RunCustomScript(CameraEnabled), prefs, old(effects));
        assert Reactions.CameraReactions(was, now) == [Reactions.EnableDND, Reactions.RunCustomScript(CameraEnabled)];
      case NotUsingCamera =>
        DisableDND();
        RunCustomScript(CameraDisabled);
        PerformPair(Reactions.DisableDND, Reactions.RunCustomScript(CameraDisabled), prefs, old(effects));
        assert Reactions.CameraReactions(was, now) == [Reactions.DisableDND, Reactions.RunCustomScript(CameraDisabled)];
      case ZoomNotRunning =>
        DisableDND();
        PerformOne(Reactions.DisableDND, prefs);
        assert Reactions.CameraReactions(was, now) == [Reactions.DisableDND];
      case _ =>
        assert effects == old(effects) + Shells([]);
    }

    /** Assign `screenShareSampleResult`, running its observer. */
    method SetScreenShareSampleResult(value: ScreenSharingSampleResult)
      requires Valid()
      modifies this
      ensures Valid() && State() == old(State()).(screenShare := value)
      ensures effects == old(effects)
        + Shells(Reactions.PerformAll(Reactions.ScreenSharingReactions(old(screenShareSampleResult), value), old(Preferences())))
    {
      var was := screenShareSampleResult;
      screenShareSampleResult := value;
      ScreenSharingObserver(was);
    }

    /** The body of `screenShareSampleResult`'s observer, `was` being the value it replaced. */
    method ScreenSharingObserver(was: ScreenSharingSampleResult)
      requires Valid()
      modifies this
      ensures Valid() && State() == old(State())
      ensures effects == old(effects)
        + Shells(Reactions.PerformAll(Reactions.ScreenSharingReactions(was, screenShareSampleResult), old(Preferences())))
    {
      ghost var prefs := Preferences();
      var now := screenShareSampleResult;
      if was == now || was.NoResult? {
        assert effects == old(effects) + Shells([]);
        return;
      }
      match now
      case ScreenSharing =>
        RunCustomScript(ScreenSharingStarted);
        PerformOne(Reactions.RunCustomScript(ScreenSharingStarted), prefs);
      case NotScreenSharing =>
        RunCustomScript(ScreenSharingEnded);
        PerformOne(Reactions.RunCustomScript(ScreenSharingEnded), prefs);
      case _ =>
        assert effects == old(effects) + Shells([]);
    }

    /** Assign `zoomProcess`, running its observer. */
    method SetZoomProcess(value: ZoomProcessResult)
      requires Valid()
      modifies this
      ensures Valid() && State() == old(State()).(process := value)
      ensures effects == old(effects)
        + Shells(Reactions.PerformAll(Reactions.ProcessReactions(old(zoomProcess), value), old(Preferences())))
    {
      var was := zoomProcess;
      zoomProcess := value;
      ProcessObserver(was);
    }

    /** The body of `zoomProcess`'s observer, `was` being the value it replaced. */
    method ProcessObserver(was: ZoomProcessResult)
      requires Valid()
      modifies this
      ensures Valid() && State() == old(State())
      ensures effects == old(effects)
        + Shells(Reactions.PerformAll(Reactions.ProcessReactions(was, zoomProcess), old(Preferences())))
    {
      ghost var prefs := Preferences();
      var now := zoomProcess;
      if was.NoResult? || was == now {
        assert effects == old(effects) + Shells([]);
        return;
      }
      match now
      case AppRunning =>
        RunCustomScript(AppStarted);
        PerformOne(Reactions.RunCustomScript(AppStarted), prefs);
      case AppNotRunning =>
        RunCustomScript(AppEnded);
        PerformOne(Reactions.RunCustomScript(AppEnded), prefs);
      case _ =>
        assert effects == old(effects) + Shells([]);
    }

    // ---- the callbacks of one tick, as they run on the main queue

    method ReceiveCameraSample(result: CameraSampleResult)
      requires Valid()
      modifies this
      ensures Valid() && State() == old(State()).(camera := result, textResult := CameraText(result))
      ensures effects == old(effects)
        + Shells(Reactions.PerformAll(Reactions.CameraReactions(old(cameraSampleResult), result), old(Preferences())))
    {
      SetCameraSampleResult(result);
      textResult := CameraText(result);
    }

    method ReceiveScreenSharingSample(result: ScreenSharingSampleResult)
      requires Valid()
      modifies this
      ensures Valid() && State() == old(State()).(screenShare := result, screensharingText := ScreenSharingText(result))
      ensures effects == old(effects)
        + Shells(Reactions.PerformAll(Reactions.ScreenSharingReactions(old(screenShareSampleResult), result), old(Preferences())))
    {
      SetScreenShareSampleResult(result);
      screensharingText := ScreenSharingText(result);
    }

    /** The camera provider's part of a tick: sample, then deliver its one callback. */
    method CameraStep(xosApps: seq<Pid>, grepExitCode: int)
      requires Valid()
      modifies this
      ensures var run := CameraUsageSample(xosApps, grepExitCode);
              Valid() && State() == old(State()).(camera := run.callbacks[0], textResult := CameraText(run.callbacks[0]))
              && effects == old(effects) + Shells(run.commands)
                 + Shells(Reactions.PerformAll(Reactions.CameraReactions(old(cameraSampleResult), run.callbacks[0]), old(Preferences())))
    {
      var run := CameraUsageSample(xosApps, grepExitCode);
      Issue(run.commands);
      ReceiveCameraSample(run.callbacks[0]);
    }

    /**
     * The screen-sharing provider's part of a tick: sample, then deliver its
     * callback when it makes one; without one the channel keeps its value.
     */
    method ScreenSharingStep(cptHostApps: seq<Pid>, grepExitCode: int)
      requires Valid()
      modifies this
      ensures var run := ScreenSharingUsageSample(cptHostApps, grepExitCode);
              Valid()
              && (run.callbacks == [] ==> State() == old(State()) && effects == old(effects) + Shells(run.commands))
              && (run.callbacks != [] ==>
                    State() == old(State()).(screenShare := run.callbacks[0], screensharingText := ScreenSharingText(run.callbacks[0]))
                    && effects == old(effects) + Shells(run.commands)
                       + Shells(Reactions.PerformAll(Reactions.ScreenSharingReactions(old(screenShareSampleResult), run.callbacks[0]), old(Preferences()))))
    {
      var run := ScreenSharingUsageSample(cptHostApps, grepExitCode);
      Issue(run.commands);
      if run.callbacks != [] {
        ReceiveScreenSharingSample(run.callbacks[0]);
      }
    }

    /** The process provider's part of a tick. */
    method ProcessStep(xosApps: seq<Pid>)
      requires Valid()
      modifies this
      ensures var result := ZoomProcess(xosApps).callbacks[0];
              Valid() && State() == old(State()).(process := result)
              && effects == old(effects)
                 + Shells(Reactions.PerformAll(Reactions.ProcessReactions(old(zoomProcess), result), old(Preferences())))
    {
      SetZoomProcess(ZoomProcess(xosApps).callbacks[0]);
    }

    /**
     * One firing of the timer. `cameraXosApps` and `processXosApps` are the
     * running processes of the client as seen by the camera provider's and the
     * process provider's own queries (they may differ when the client starts
     * or quits in between), `cptHostApps` those of its screen-capture host,
     * and the two exit codes are those of the camera and screen-sharing
     * sentinel searches.
     * The providers' callbacks are applied camera first, then screen sharing,
     * then the process.
     */
    method Tick(cameraXosApps: seq<Pid>, cptHostApps: seq<Pid>, processXosApps: seq<Pid>,
                cameraGrepExitCode: int, screenGrepExitCode: int)
      requires Valid() && timer.Some?
      modifies this
      ensures Valid() && timer == old(timer) && nextTimer == old(nextTimer)
      ensures cameraSampleResult == CameraUsageSample(cameraXosApps, cameraGrepExitCode).callbacks[0]
      ensures textResult == CameraText(cameraSampleResult)
      ensures ScreenSharingUsageSample(cptHostApps, screenGrepExitCode).callbacks == []
              ==> screenShareSampleResult == old(screenShareSampleResult) && screensharingText == old(screensharingText)
      ensures ScreenSharingUsageSample(cptHostApps, screenGrepExitCode).callbacks != []
              ==> screenShareSampleResult == ScreenSharingUsageSample(cptHostApps, screenGrepExitCode).callbacks[0]
                  && screensharingText == ScreenSharingText(screenShareSampleResult)
      ensures zoomProcess == ZoomProcess(processXosApps).callbacks[0]
      ensures State() == old(State()).(camera := cameraSampleResult, textResult := textResult,
                                       screenShare := screenShareSampleResult, screensharingText := screensharingText,
                                       process := zoomProcess)
      ensures effects == old(effects)
        + Shells(CameraUsageSample(cameraXosApps, cameraGrepExitCode).commands)
        + Shells(Reactions.PerformAll(Reactions.CameraReactions(old(cameraSampleResult), cameraSampleResult), old(Preferences())))
        + Shells(ScreenSharingUsageSample(cptHostApps, screenGrepExitCode).commands)
        + Shells(Reactions.PerformAll(Reactions.ScreenSharingReactions(old(screenShareSampleResult), screenShareSampleResult), old(Preferences())))
        + Shells(Reactions.PerformAll(Reactions.ProcessReactions(old(zoomProcess), zoomProcess), old(Preferences())))
    {
      ghost var prefs := Preferences();
      CameraStep(cameraXosApps, cameraGrepExitCode);
      ghost var screenBefore := screenShareSampleResult;
      ghost var afterCamera := effects;
      ScreenSharingStep(cptHostApps, screenGrepExitCode);
      if ScreenSharingUsageSample(cptHostApps, screenGrepExitCode).callbacks == [] {
        assert Shells(Reactions.PerformAll(Reactions.ScreenSharingReactions(screenBefore, screenBefore), prefs)) == [];
      }
      assert effects == afterCamera
        + Shells(ScreenSharingUsageSample(cptHostApps, screenGrepExitCode).commands)
        + Shells(Reactions.PerformAll(Reactions.ScreenSharingReactions(screenBefore, screenShareSampleResult), prefs));
      ProcessStep(processXosApps);
    }

    // ---- shortcuts, start and stop

    /** fetchShortcutsList, given the exit status and output of `shortcuts list`. */
    method FetchShortcutsList(exitCode: int, stdout: string)
      requires Valid()
      modifies this
      ensures Valid()
      ensures listOfAvailableShortcuts
           == if exitCode == 0 then Shortcuts.SplitLines(stdout) else [Shortcuts.Placeholder]
      ensures State() == old(State()).(shortcuts := listOfAvailableShortcuts)
      ensures effects == old(effects) + [Shell(ListShortcuts)]
    {
      Issue([ListShortcuts]);
      var result := Shortcuts.ListShortcuts(exitCode, stdout);
      match result
      case Success(names) => listOfAvailableShortcuts := names;
      case Failure(_) => listOfAvailableShortcuts := [Shortcuts.Placeholder];
    }

    /** start(): fetch the shortcuts and schedule the timer unless one is already held. */
    method Start(shortcutsExitCode: int, shortcutsStdout: string)
      requires Valid()
      modifies this
      ensures Valid() && timer.Some? && LiveTimers(effects) == {timer.value}
      ensures old(timer).Some? ==> timer == old(timer) && nextTimer == old(nextTimer)
      ensures old(timer).None? ==> timer == Some(old(nextTimer)) && nextTimer == old(nextTimer) + 1
      ensures listOfAvailableShortcuts
           == if shortcutsExitCode == 0 then Shortcuts.SplitLines(shortcutsStdout) else [Shortcuts.Placeholder]
      ensures State() == old(State()).(timer := timer, nextTimer := nextTimer, shortcuts := listOfAvailableShortcuts)
      ensures effects == old(effects) + [Shell(ListShortcuts)]
        + (if old(timer).None? then [ScheduleTimer(old(nextTimer), TimerIntervalSeconds)] else [])
    {
      FetchShortcutsList(shortcutsExitCode, shortcutsStdout);
      if timer.Some? {
        return;
      }
      LedgerAfterSchedule(effects, nextTimer, TimerIntervalSeconds);
      effects := effects + [ScheduleTimer(nextTimer, TimerIntervalSeconds)];
      timer := Some(nextTimer);
      nextTimer := nextTimer + 1;
    }

    /** stop(): invalidate the held timer, if any, and forget it. */
    method Stop()
      requires Valid()
      modifies this
      ensures Valid() && timer.None? && LiveTimers(effects) == {}
      ensures State() == old(State()).(timer := None)
      ensures effects == old(effects) + (if old(timer).Some? then [InvalidateTimer(old(timer).value)] else [])
    {
      if timer.Some? {
        LedgerAfterInvalidate(effects, timer.value, nextTimer);
        effects := effects + [InvalidateTimer(timer.value)];
      }
      timer := None;
    }
  }

  /** A client of `Model`: start twice, sample, stop twice. */
  method StartStopScenario(exitCode: int, stdout: string)
  {
    var m := new Model(true, true, true);
    m.Start(exitCode, stdout);
    m.Start(exitCode, stdout);
    assert m.timer == Some(0) && LiveTimers(m.effects) == {0};
    m.Tick([42], [], [42], 1, 1);
    assert m.cameraSampleResult == NotUsingCamera && m.screenShareSampleResult == NotScreenSharing;
    var before := m.effects;
    m.Tick([42], [], [42], 0, 1);
    assert m.cameraSampleResult == UsingCamera;
    Reactions.CameraComesOn(m.Preferences());
    assert m.effects == before
      + Shells([SampleProcess(42, SampleDurationMs, CameraSampleFile), GrepFile(CameraSentinel, CameraSampleFile)])
      + Shells([RunShortcut("dndon"), BashScript("~/.iszoomusingcamera/camera_enabled.sh")]);
    m.Stop();
    m.Stop();
    assert m.timer == None && LiveTimers(m.effects) == {};
  }
}
