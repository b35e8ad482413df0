/** The GPU process crash window: each crash counts, the third crash within the window
    terminates every content process, and a 30-second one-shot timer armed by the first
    crash of a window resets the count. */
module GpuCrashPolicy {

  /** resetGPUProcessCrashCountDelay, in seconds. */
  const ResetGPUProcessCrashCountDelay: nat := 30
  const MaximumGPUProcessRelaunchAttemptsBeforeKillingWebProcesses: nat := 2

  datatype CrashWindow = CrashWindow(recentCrashCount: nat, resetTimerActive: bool)

  /** The window's invariant: the count never passes the maximum, and the reset timer is
      armed exactly while some crash is being counted. */
  predicate WindowValid(w: CrashWindow)
  {
    && w.recentCrashCount <= MaximumGPUProcessRelaunchAttemptsBeforeKillingWebProcesses
    && (w.resetTimerActive <==> w.recentCrashCount > 0)
  }

  const InitialWindow: CrashWindow := CrashWindow(0, false)

  datatype CrashOutcome = CrashOutcome(window: CrashWindow, terminatesAllWebContentProcesses: bool)

  /** gpuProcessCrashed's bookkeeping. */
  function AfterCrash(w: CrashWindow): (r: CrashOutcome)
    ensures r.terminatesAllWebContentProcesses <==>
              w.recentCrashCount + 1 > MaximumGPUProcessRelaunchAttemptsBeforeKillingWebProcesses
    ensures r.terminatesAllWebContentProcesses ==> r.window == InitialWindow
    ensures !r.terminatesAllWebContentProcesses ==>
              r.window.recentCrashCount == w.recentCrashCount + 1 && r.window.resetTimerActive
    ensures WindowValid(w) ==> WindowValid(r.window)
  {
    var count := w.recentCrashCount + 1;
    if count > MaximumGPUProcessRelaunchAttemptsBeforeKillingWebProcesses then
      CrashOutcome(CrashWindow(0, false), true)
    else if !w.resetTimerActive then
      CrashOutcome(CrashWindow(count, true), false)
    else
      CrashOutcome(CrashWindow(count, w.resetTimerActive), false)
  }

  /** The reset timer firing: the one-shot timer is spent and the count starts over. */
  function AfterResetTimerFired(w: CrashWindow): (r: CrashWindow)
    requires w.resetTimerActive
    ensures r == InitialWindow
    ensures WindowValid(r)
  {
    CrashWindow(0, false)
  }

  datatype WindowEvent = GpuProcessCrash | ResetTimerFired

  datatype RunOutcome = RunOutcome(window: CrashWindow, terminations: nat)

  /** Applies events in order; a timer firing while the timer is not armed cannot occur and
      is skipped. */
  function Run(w: CrashWindow, events: seq<WindowEvent>): (r: RunOutcome)
    ensures WindowValid(w) ==> WindowValid(r.window)
    ensures r.terminations <= |events|
    // each termination uses up three counted crashes: at most one per three events
    ensures WindowValid(w) ==> 3 * r.terminations + r.window.recentCrashCount <= w.recentCrashCount + |events|
    decreases |events|
  {
    if events == [] then RunOutcome(w, 0)
    else
      match events[0]
      case GpuProcessCrash =>
        var o := AfterCrash(w);
        var rest := Run(o.window, events[1..]);
        RunOutcome(rest.window, rest.terminations + (if o.terminatesAllWebContentProcesses then 1 else 0))
      case ResetTimerFired =>
        if w.resetTimerActive then Run(AfterResetTimerFired(w), events[1..]) else Run(w, events[1..])
  }

  function Crashes(k: nat): (r: seq<WindowEvent>)
    ensures |r| == k
    ensures forall i :: 0 <= i < k ==> r[i] == GpuProcessCrash
  {
    if k == 0 then [] else [GpuProcessCrash] + Crashes(k - 1)
  }

  /** A burst of k crashes with no timer firing in between terminates all content processes
      once for every third crash counted in the window, and leaves the remainder counted. */
  lemma {:induction false} CrashBurst(w: CrashWindow, k: nat)
    requires WindowValid(w)
    ensures Run(w, Crashes(k)).terminations == (w.recentCrashCount + k) / 3
    ensures Run(w, Crashes(k)).window.recentCrashCount == (w.recentCrashCount + k) % 3
    decreases k
  {
    if k > 0 {
      var o := AfterCrash(w);
      assert Crashes(k)[1..] == Crashes(k - 1);
      CrashBurst(o.window, k - 1);
    }
  }

  /** From a fresh window, the third crash is the first one that terminates. */
  lemma ThirdCrashTerminates()
    ensures Run(InitialWindow, Crashes(2)).terminations == 0
    ensures Run(InitialWindow, Crashes(3)).terminations == 1
    ensures Run(InitialWindow, Crashes(3)).window == InitialWindow
  {
    CrashBurst(InitialWindow, 2);
    CrashBurst(InitialWindow, 3);
  }

  /** Once the reset timer fires, the next two crashes never terminate. */
  lemma ResetBreaksTheStreak(w: CrashWindow)
    requires WindowValid(w) && w.resetTimerActive
    ensures Run(w, [ResetTimerFired] + Crashes(2)).terminations == 0
  {
    assert ([ResetTimerFired] + Crashes(2))[1..] == Crashes(2);
    CrashBurst(InitialWindow, 2);
  }
}
