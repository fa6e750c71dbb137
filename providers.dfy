/**
 * The three per-tick providers of isZoomUsingCamera/Model.swift. Each one
 * looks up the running applications with a bundle identifier and, for the two
 * samplers, samples the first such process and greps the sample for a
 * sentinel. The running-application query and grep's exit code are inputs;
 * a provider's run is the commands it issues and the callbacks it makes.
 */
module Providers {
  import opened Effects
  import opened SampleResults

  /** One provider run: the shell commands issued and the callbacks delivered, in order. */
  datatype Run<T> = Run(commands: seq<Command>, callbacks: seq<T>)

  /** Both samplers sample for 0.1 seconds. */
  const SampleDurationMs: nat := 100

  const CameraSampleFile := "/tmp/zoomsample"
  const CameraSentinel := "CMIOGraph::DoWork"
  const ScreenSharingSampleFile := "/tmp/zoomsamplescreensharing"
  const ScreenSharingSentinel := "capture thread"

  /** Sample the first matching process into `file`, then search it for `sentinel`. */
  function SampleAndSearch(apps: seq<Pid>, file: string, sentinel: string): (r: seq<Command>)
    requires apps != []
    ensures |r| == 2 && r[0].SampleProcess? && r[1].GrepFile?
    ensures r[0].pid == apps[0] && r[0].outputFile == r[1].file == file && r[1].pattern == sentinel
  {
    [SampleProcess(apps[0], SampleDurationMs, file), GrepFile(sentinel, file)]
  }

  /** ZoomProcessProvider.run: `apps` are the running processes of the main client. */
  function ZoomProcess(apps: seq<Pid>): (r: Run<ZoomProcessResult>)
    ensures r.commands == [] && |r.callbacks| == 1
    ensures r.callbacks[0].AppNotRunning? <==> apps == []
    ensures r.callbacks[0].AppRunning? <==> apps != []
  {
    if apps == [] then Run([], [AppNotRunning]) else Run([], [AppRunning])
  }

  /**
   * ScreenSharingUsageSampleProvider.run: `apps` are the running processes of
   * the client's screen-capture host, `grepExitCode` the exit code of the
   * sentinel search (read only when something was sampled).
   */
  function ScreenSharingUsageSample(apps: seq<Pid>, grepExitCode: int): (r: Run<ScreenSharingSampleResult>)
    ensures |r.callbacks| <= 1
    ensures r.callbacks == [] <==> apps != [] && grepExitCode != 0 && grepExitCode != 1
    ensures r.callbacks == [ScreenSharing] <==> apps != [] && grepExitCode == 0
    ensures r.callbacks == [NotScreenSharing] <==> apps == [] || grepExitCode == 1
    ensures r.commands == [] <==> apps == []
    ensures apps != [] ==> r.commands == SampleAndSearch(apps, ScreenSharingSampleFile, ScreenSharingSentinel)
  {
    if apps == [] then Run([], [NotScreenSharing])
    else
      var commands := SampleAndSearch(apps, ScreenSharingSampleFile, ScreenSharingSentinel);
      if grepExitCode == 0 then Run(commands, [ScreenSharing])
      else if grepExitCode == 1 then Run(commands, [NotScreenSharing])
      else Run(commands, [])
  }

  /**
   * CameraUsageSampleProvider.run: `apps` are the running processes of the
   * main client, `grepExitCode` the exit code of the sentinel search.
   */
  function CameraUsageSample(apps: seq<Pid>, grepExitCode: int): (r: Run<CameraSampleResult>)
    ensures |r.callbacks| == 1 && !r.callbacks[0].NoResult?
    ensures r.callbacks[0].ZoomNotRunning? <==> apps == []
    ensures r.callbacks[0].UsingCamera? <==> apps != [] && grepExitCode == 0
    ensures r.callbacks[0].NotUsingCamera? <==> apps != [] && grepExitCode == 1
    ensures r.callbacks[0].ErrorSampling? <==> apps != [] && grepExitCode != 0 && grepExitCode != 1
    ensures r.commands == [] <==> apps == []
    ensures apps != [] ==> r.commands == SampleAndSearch(apps, CameraSampleFile, CameraSentinel)
  {
    if apps == [] then Run([], [ZoomNotRunning])
    else
      var commands := SampleAndSearch(apps, CameraSampleFile, CameraSentinel);
      if grepExitCode == 0 then Run(commands, [UsingCamera])
      else if grepExitCode == 1 then Run(commands, [NotUsingCamera])
      else Run(commands, [ErrorSampling])
  }
}
