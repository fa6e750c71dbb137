/**
 * The earlier, camera-only version of the app (isZoomUsingCamera/SampleProvider.swift):
 * `ZoomStatus` owns a repeating timer whose every firing runs `SampleProvider`
 * and shows its result as `textResult`.
 */
module SampleProvider {
  import opened Wrappers
  import opened Effects
  import Providers
  import SampleResults

  datatype SampleResult = NoResult | UsingCamera | ZoomNotRunning | NotUsingCamera | ErrorSampling

  /** The same classification under the name the later version gives it. */
  function AsCameraResult(r: SampleResult): SampleResults.CameraSampleResult
  {
    match r
    case NoResult => SampleResults.CameraSampleResult.NoResult
    case UsingCamera => SampleResults.CameraSampleResult.UsingCamera
    case ZoomNotRunning => SampleResults.CameraSampleResult.ZoomNotRunning
    case NotUsingCamera => SampleResults.CameraSampleResult.NotUsingCamera
    case ErrorSampling => SampleResults.CameraSampleResult.ErrorSampling
  }

  /**
   * SampleProvider.run: `apps` are the running processes of the client and
   * `grepExitCode` the exit code of the sentinel search. Every path makes
   * exactly one callback; nothing is sampled when the client is not running.
   */
  function Sample(apps: seq<Pid>, grepExitCode: int): (r: Providers.Run<SampleResult>)
    ensures |r.callbacks| == 1 && !r.callbacks[0].NoResult?
    ensures r.callbacks[0].ZoomNotRunning? <==> apps == []
    ensures r.callbacks[0].UsingCamera? <==> apps != [] && grepExitCode == 0
    ensures r.callbacks[0].NotUsingCamera? <==> apps != [] && grepExitCode == 1
    ensures r.callbacks[0].ErrorSampling? <==> apps != [] && grepExitCode != 0 && grepExitCode != 1
    ensures r.commands == [] <==> apps == []
    ensures apps != [] ==> r.commands == Providers.SampleAndSearch(apps, Providers.CameraSampleFile, Providers.CameraSentinel)
  {
    if apps == [] then Providers.Run([], [ZoomNotRunning])
    else
      var commands := Providers.SampleAndSearch(apps, Providers.CameraSampleFile, Providers.CameraSentinel);
      if grepExitCode == 0 then Providers.Run(commands, [UsingCamera])
      else if grepExitCode == 1 then Providers.Run(commands, [NotUsingCamera])
      else Providers.Run(commands, [ErrorSampling])
  }

  /** The earlier provider and the later camera provider sample and classify alike. */
  lemma SampleAgreesWithCameraProvider(apps: seq<Pid>, grepExitCode: int)
    ensures Sample(apps, grepExitCode).commands == Providers.CameraUsageSample(apps, grepExitCode).commands
    ensures AsCameraResult(Sample(apps, grepExitCode).callbacks[0])
         == Providers.CameraUsageSample(apps, grepExitCode).callbacks[0]
  {
  }

  /** The text shown for a result: the later version's camera status line. */
  function ResultText(r: SampleResult): (t: string)
    ensures |t| > 0
    ensures t == SampleResults.CameraText(AsCameraResult(r))
  {
    match r
    case NoResult => "No result"
    case UsingCamera => "Zoom is USING the camera"
    case NotUsingCamera => "Zoom is NOT USING the camera"
    case ZoomNotRunning => "Zoom does not appear to be running"
    case ErrorSampling => "Error sampling"
  }

  /** The five results are shown with five different texts. */
  lemma ResultTextInjective(a: SampleResult, b: SampleResult)
    ensures ResultText(a) == ResultText(b) ==> a == b
  {
  }

  const TimerIntervalSeconds: nat := 1

  class ZoomStatus {
    var textResult: string
    var timer: Option<TimerId>
    /** The handle the next scheduled timer gets. */
    var nextTimer: TimerId
    ghost var effects: seq<Effect>

    /** The object holds exactly the timers that are live. */
    ghost predicate Valid()
      reads this
    {
      TimerLedger(effects, timer, nextTimer)
    }

    constructor ()
      ensures Valid() && effects == []
      ensures textResult == "No results" && timer == None && nextTimer == 0
    {
      textResult := "No results";
      timer := None;
      nextTimer := 0;
      effects := [];
    }

    /** start(): schedule the timer unless one is already held. */
    method Start()
      requires Valid()
      modifies this
      ensures Valid() && timer.Some? && LiveTimers(effects) == {timer.value}
      ensures textResult == old(textResult)
      ensures old(timer).Some? ==> timer == old(timer) && nextTimer == old(nextTimer) && effects == old(effects)
      ensures old(timer).None? ==> timer == Some(old(nextTimer)) && nextTimer == old(nextTimer) + 1
                                   && effects == old(effects) + [ScheduleTimer(old(nextTimer), TimerIntervalSeconds)]
    {
      if timer.Some? {
        return;
      }
      LedgerAfterSchedule(effects, nextTimer, TimerIntervalSeconds);
      effects := effects + [ScheduleTimer(nextTimer, TimerIntervalSeconds)];
      timer := Some(nextTimer);
      nextTimer := nextTimer + 1;
    }

    /** stop(): invalidate the held timer, if any, and forget it. */
    method Stop()
      requires Valid()
      modifies this
      ensures Valid() && timer.None? && LiveTimers(effects) == {}
      ensures textResult == old(textResult) && nextTimer == old(nextTimer)
      ensures effects == old(effects) + (if old(timer).Some? then [InvalidateTimer(old(timer).value)] else [])
    {
      if timer.Some? {
        LedgerAfterInvalidate(effects, timer.value, nextTimer);
        effects := effects + [InvalidateTimer(timer.value)];
      }
      timer := None;
    }

    /** One firing of the timer, `apps` and `grepExitCode` as for `Sample`. */
    method Tick(apps: seq<Pid>, grepExitCode: int)
      requires Valid() && timer.Some?
      modifies this
      ensures Valid() && timer == old(timer) && nextTimer == old(nextTimer)
      ensures textResult == ResultText(Sample(apps, grepExitCode).callbacks[0])
      ensures effects == old(effects) + Shells(Sample(apps, grepExitCode).commands)
    {
      var run := Sample(apps, grepExitCode);
      LedgerAfterShells(effects, run.commands, timer, nextTimer);
      effects := effects + Shells(run.commands);
      textResult := ResultText(run.callbacks[0]);
    }
  }
}
