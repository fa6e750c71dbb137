/**
 * The observable effects of the app: the external commands it runs and the
 * repeating timers it schedules and invalidates. Every command the app hands
 * to the shell, and every timer it creates or cancels, is appended to a log
 * of these effects; the log is what the rest of the model is specified by.
 */
module Effects {
  import opened Wrappers

  /** A process identifier as reported by the running-application query. */
  type Pid = int

  /** A handle for a scheduled repeating timer. */
  type TimerId = nat

  /** External commands, one constructor per command line the app builds. */
  datatype Command =
    | SampleProcess(pid: Pid, durationMs: nat, outputFile: string)  // /usr/bin/sample <pid> <duration> -f <file>
    | GrepFile(pattern: string, file: string)                        // /usr/bin/grep '<pattern>' <file>
    | RunShortcut(name: string)                                       // shortcuts run <name>
    | BashScript(path: string)                                        // bash <path>
    | ListShortcuts                                                   // shortcuts list

  datatype Effect =
    | Shell(command: Command)
    | ScheduleTimer(id: TimerId, intervalSeconds: nat)
    | InvalidateTimer(id: TimerId)

  /** The log entries for running the commands `cs`, in order. */
  function Shells(cs: seq<Command>): (r: seq<Effect>)
    ensures |r| == |cs|
    decreases |cs|
  {
    if cs == [] then [] else [Shell(cs[0])] + Shells(cs[1..])
  }

  /** Running `a` then `b` is logged as the entries for `a` then those for `b`. */
  lemma {:induction false} ShellsAppend(a: seq<Command>, b: seq<Command>)
    ensures Shells(a + b) == Shells(a) + Shells(b)
    decreases |a|
  {
    if a == [] {
      assert a + b == b;
    } else {
      assert (a + b)[0] == a[0] && (a + b)[1..] == a[1..] + b;
      ShellsAppend(a[1..], b);
    }
  }

  lemma {:induction false} ShellsAreShells(cs: seq<Command>)
    ensures forall e | e in Shells(cs) :: e.Shell?
    decreases |cs|
  {
    if cs != [] {
      ShellsAreShells(cs[1..]);
    }
  }

  /** The timers scheduled in `log` and not invalidated after their scheduling. */
  function LiveTimers(log: seq<Effect>): set<TimerId>
    decreases |log|
  {
    if log == [] then {}
    else
      var earlier := LiveTimers(log[..|log| - 1]);
      match log[|log| - 1]
      case Shell(_) => earlier
      case ScheduleTimer(id, _) => earlier + {id}
      case InvalidateTimer(id) => earlier - {id}
  }

  lemma {:induction false} LiveTimersIgnoreShells(log: seq<Effect>, cs: seq<Command>)
    ensures LiveTimers(log + Shells(cs)) == LiveTimers(log)
    decreases |cs|
  {
    if cs == [] {
      assert log + Shells(cs) == log;
    } else {
      var init := cs[..|cs| - 1];
      assert cs == init + [cs[|cs| - 1]];
      ShellsAppend(init, [cs[|cs| - 1]]);
      var full := log + Shells(cs);
      assert full[..|full| - 1] == log + Shells(init);
      assert full[|full| - 1] == Shell(cs[|cs| - 1]);
      assert LiveTimers(full) == LiveTimers(log + Shells(init));
      LiveTimersIgnoreShells(log, init);
    }
  }

  /**
   * The timer ledger of an object that owns at most one timer: the live timers
   * of its log are exactly the one it holds (none when it holds none), and
   * every handle it has issued is below `next`, so handles are never reused.
   */
  ghost predicate TimerLedger(log: seq<Effect>, timer: Option<TimerId>, next: TimerId)
  {
    LiveTimers(log) == (if timer.Some? then {timer.value} else {})
    && forall e | e in log && e.ScheduleTimer? :: e.id < next
  }

  lemma LedgerAfterShells(log: seq<Effect>, cs: seq<Command>, timer: Option<TimerId>, next: TimerId)
    requires TimerLedger(log, timer, next)
    ensures TimerLedger(log + Shells(cs), timer, next)
  {
    LiveTimersIgnoreShells(log, cs);
    ShellsAreShells(cs);
  }

  lemma LedgerAfterSchedule(log: seq<Effect>, next: TimerId, interval: nat)
    requires TimerLedger(log, None, next)
    ensures TimerLedger(log + [ScheduleTimer(next, interval)], Some(next), next + 1)
  {
  }

  lemma LedgerAfterInvalidate(log: seq<Effect>, id: TimerId, next: TimerId)
    requires TimerLedger(log, Some(id), next)
    ensures TimerLedger(log + [InvalidateTimer(id)], None, next)
  {
  }
}
