/** `MonitorAgent.start` / `stop`: the `running` flag and the loop tasks put on
    the event loop. The loop body (sample the frontmost application every 15
    seconds while `running` holds) is not modelled. */
module Monitor {

  /** `running`, and how many loop tasks `start` has scheduled so far. */
  datatype Monitor = Monitor(running: bool, scheduled: nat)

  /** The monitor as constructed: stopped, nothing scheduled. */
  function Initial(): Monitor {
    Monitor(false, 0)
  }

  /** `start(loop)`: a no-op while running; otherwise set the flag and schedule
      exactly one loop task. */
  function Start(m: Monitor): (r: Monitor)
    ensures m.running ==> r == m
    ensures !m.running ==> r.running && r.scheduled == m.scheduled + 1
    ensures r.running
  {
    if m.running then m else Monitor(true, m.scheduled + 1)
  }

  /** `stop()`: clear the flag; tasks already scheduled are left to notice it. */
  function Stop(m: Monitor): (r: Monitor)
    ensures !r.running
    ensures r.scheduled == m.scheduled
  {
    m.(running := false)
  }

  /** Starting twice is starting once: the second call schedules nothing. */
  lemma StartIdempotent(m: Monitor)
    ensures Start(Start(m)) == Start(m)
    ensures Start(Start(m)).scheduled <= m.scheduled + 1
  {
  }

  /** The calls a run makes, in order. */
  datatype Call = StartCall | StopCall

  function Apply(m: Monitor, calls: seq<Call>): Monitor
    decreases |calls|
  {
    if |calls| == 0 then m
    else Apply(if calls[0] == StartCall then Start(m) else Stop(m), calls[1..])
  }

  /** Calls of `start` that find the monitor stopped. */
  function EffectiveStarts(running: bool, calls: seq<Call>): nat
    decreases |calls|
  {
    if |calls| == 0 then 0
    else if calls[0] == StopCall then EffectiveStarts(false, calls[1..])
    else (if running then 0 else 1) + EffectiveStarts(true, calls[1..])
  }

  /** Over any sequence of calls, a task is scheduled exactly once for each
      `start` that finds the monitor stopped, and the flag ends as the last call
      left it. */
  lemma {:induction false} ScheduledCountsEffectiveStarts(m: Monitor, calls: seq<Call>)
    ensures Apply(m, calls).scheduled == m.scheduled + EffectiveStarts(m.running, calls)
    ensures |calls| > 0 ==> Apply(m, calls).running == (calls[|calls| - 1] == StartCall)
    decreases |calls|
  {
    if |calls| > 0 {
      var next := if calls[0] == StartCall then Start(m) else Stop(m);
      ScheduledCountsEffectiveStarts(next, calls[1..]);
      if |calls| > 1 {
        assert calls[1..][|calls[1..]| - 1] == calls[|calls| - 1];
      }
    }
  }

  /** Only `stop` lets a later `start` schedule again: a stop followed by a start
      schedules a second task while the first may still be sleeping. */
  lemma RestartSchedulesAgain(m: Monitor)
    requires m.running
    ensures Start(Stop(m)).scheduled == m.scheduled + 1
    ensures Start(m).scheduled == m.scheduled
  {
  }

  /** Startup (`main`): the monitor as constructed is stopped, and its first
      `start` schedules exactly one loop task and leaves it running. */
  lemma StartupSchedulesOneLoop()
    ensures !Initial().running && Initial().scheduled == 0
    ensures Start(Initial()) == Monitor(true, 1)
  {
  }
}
