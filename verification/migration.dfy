/** SKU migration monitoring: the events of one task, and the table of active tasks. */
module MigrationMonitor {
  import opened Text

  const PROGRESS_REPORTING_THRESHOLD := 20

  // ---------------------------------------------------------------------------------------------
  // Milestones

  /** Go's conversion to int drops the fraction, towards zero. */
  function Truncated(x: real): int {
    if x >= 0.0 then x.Floor else -(-x).Floor
  }

  function Milestone(percent: real): int {
    Truncated(percent / 20.0) * PROGRESS_REPORTING_THRESHOLD
  }

  predicate ShouldReportProgress(current: real, last: real) {
    current < 100.0 && Milestone(current) > Milestone(last) && Milestone(current) > 0
  }

  predicate IsMilestone(m: int) {
    m == 20 || m == 40 || m == 60 || m == 80
  }

  lemma ReportedMilestones(current: real)
    requires current < 100.0 && Milestone(current) > 0
    ensures IsMilestone(Milestone(current)) && Milestone(current) as real <= current < Milestone(current) as real + 20.0
  {
    var q := Truncated(current / 20.0);
    assert current / 20.0 < 5.0;
    assert 1 <= q <= 4;
    assert q as real <= current / 20.0 < q as real + 1.0;
  }

  // ---------------------------------------------------------------------------------------------
  // One task

  datatype DiskReply = Unreadable | NoProperties | Properties(completionPercent: Option<real>)

  /** What one round of polling meets: cancellation, the maximum age, and the disk. */
  datatype Tick = Tick(cancelled: bool, overMax: bool, disk: DiskReply)

  datatype Event = Progress(percent: real) | Completed | Overdue | GaveUp

  datatype PollResult = Stopped | Failed | Interrupted

  /** A disk without a percentage is done; one without properties has not begun. */
  function Percent(reply: DiskReply): Option<real> {
    match reply
    case Unreadable => None
    case NoProperties => Some(0.0)
    case Properties(None) => Some(100.0)
    case Properties(Some(p)) => Some(p)
  }

  /** The round reads a percentage. */
  predicate Reads(t: Tick) {
    !t.cancelled && !t.overMax && Percent(t.disk).Some?
  }

  predicate Completes(t: Tick) {
    Reads(t) && Percent(t.disk).value >= 100.0
  }

  predicate Ends(t: Tick) {
    t.cancelled || t.overMax || Completes(t)
  }

  /** The milestone a round has reached, 0 if none. */
  function Reached(t: Tick): int {
    if Reads(t) && Percent(t.disk).value < 100.0 && Milestone(Percent(t.disk).value) > 0
    then Milestone(Percent(t.disk).value)
    else 0
  }

  function Max(a: int, b: int): int {
    if a < b then b else a
  }

  /** The highest milestone of all rounds. */
  function Highest(ticks: seq<Tick>): int {
    if ticks == [] then 0 else Max(Highest(ticks[..|ticks| - 1]), Reached(ticks[|ticks| - 1]))
  }

  /** The milestones of the progress events, in order. */
  function Reported(events: seq<Event>): seq<int> {
    if events == [] then []
    else
      var rest := Reported(events[..|events| - 1]);
      match events[|events| - 1]
      case Progress(p) => rest + [Milestone(p)]
      case _ => rest
  }

  function Completions(events: seq<Event>): nat {
    if events == [] then 0
    else Completions(events[..|events| - 1]) + if events[|events| - 1].Completed? then 1 else 0
  }

  function LastOf(s: seq<int>): int {
    if s == [] then 0 else s[|s| - 1]
  }

  predicate Climbing(s: seq<int>) {
    && (forall i :: 0 <= i < |s| ==> IsMilestone(s[i]))
    && (forall i, j :: 0 <= i < j < |s| ==> s[i] < s[j])
  }

  lemma {:induction false} ClimbRises(s: seq<int>, i: nat)
    requires Climbing(s) && i < |s|
    ensures s[i] >= 20 * (i + 1)
  {
    if i > 0 {
      ClimbRises(s, i - 1);
    }
  }

  /** There are only four milestones to climb. */
  lemma ClimbsAreShort(s: seq<int>)
    requires Climbing(s)
    ensures |s| <= 4
  {
    if |s| > 4 {
      ClimbRises(s, 4);
    }
  }

  ghost predicate SomeCompletes(ticks: seq<Tick>) {
    exists i :: 0 <= i < |ticks| && Completes(ticks[i])
  }

  lemma CompletesInParts(a: seq<Tick>, b: seq<Tick>)
    ensures SomeCompletes(a + b) <==> SomeCompletes(a) || SomeCompletes(b)
  {
    if SomeCompletes(b) {
      var i :| 0 <= i < |b| && Completes(b[i]);
      assert (a + b)[|a| + i] == b[i];
    }
    if SomeCompletes(a) {
      var i :| 0 <= i < |a| && Completes(a[i]);
      assert (a + b)[i] == a[i];
    }
  }

  lemma EventAdded(events: seq<Event>, e: Event)
    ensures Reported(events + [e]) == if e.Progress? then Reported(events) + [Milestone(e.percent)]
      else Reported(events)
    ensures Completions(events + [e]) == Completions(events) + if e.Completed? then 1 else 0
  {
    assert (events + [e])[..|events|] == events;
  }

  lemma TickAdded(ticks: seq<Tick>, t: Tick)
    ensures Highest(ticks + [t]) == Max(Highest(ticks), Reached(t))
  {
    assert (ticks + [t])[..|ticks|] == ticks;
  }

  class MigrationTask {
    var lastReportedProgress: real
    var timedOut: bool
    var events: seq<Event>

    constructor ()
      ensures Valid([]) && !timedOut && Completions(events) == 0
    {
      lastReportedProgress := 0.0;
      timedOut := false;
      events := [];
    }

    /**
     * The events so far, given the rounds so far: each milestone at most once, upwards, and the highest one reached.
     */
    ghost predicate Valid(ticks: seq<Tick>)
      reads this
    {
      && Climbing(Reported(events))
      && LastOf(Reported(events)) == Milestone(lastReportedProgress) == Highest(ticks)
    }

    method Emit(e: Event)
      requires !e.Progress?
      modifies `events
      ensures Reported(events) == old(Reported(events))
      ensures Completions(events) == old(Completions(events)) + if e.Completed? then 1 else 0
    {
      EventAdded(events, e);
      events := events + [e];
    }

    method ReportProgress(percent: real, ghost ticks: seq<Tick>, ghost t: Tick)
      requires Valid(ticks) && Reads(t) && Percent(t.disk).value == percent
      modifies `events, `lastReportedProgress
      ensures Valid(ticks + [t])
      ensures Completions(events) == old(Completions(events))
    {
      TickAdded(ticks, t);
      if ShouldReportProgress(percent, lastReportedProgress) {
        ReportedMilestones(percent);
        EventAdded(events, Progress(percent));
        events := events + [Progress(percent)];
        lastReportedProgress := percent;
      }
    }

    /** One round: whether polling stops, and whether with an error. */
    method PollCondition(t: Tick, ghost ticks: seq<Tick>) returns (stop: bool, failed: bool)
      requires Valid(ticks)
      modifies `events, `lastReportedProgress
      ensures Valid(ticks + [t])
      ensures stop == Ends(t) && failed == (!t.cancelled && t.overMax)
      ensures Completions(events) == old(Completions(events)) + if Completes(t) then 1 else 0
    {
      TickAdded(ticks, t);
      if t.cancelled {
        return true, false;
      }
      if t.overMax {
        Emit(GaveUp);
        return true, true;
      }
      var percent := Percent(t.disk);
      if percent.None? {
        return false, false;
      }
      ReportProgress(percent.value, ticks, t);
      if percent.value >= 100.0 {
        Emit(Completed);
        return true, false;
      }
      return false, false;
    }

    /** PollUntilContextTimeout over the rounds that come before its context ends. */
    method Poll(rounds: seq<Tick>, ghost before: seq<Tick>) returns (result: PollResult, n: nat)
      requires Valid(before)
      modifies `events, `lastReportedProgress
      ensures n <= |rounds| && Valid(before + rounds[..n])
      ensures result.Interrupted? <==> forall i :: 0 <= i < |rounds| ==> !Ends(rounds[i])
      ensures result.Interrupted? ==> n == |rounds|
      ensures !result.Interrupted? ==>
        StopsAt(rounds, n) && result.Failed? == (rounds[n - 1].overMax && !rounds[n - 1].cancelled)
      ensures Completions(events) == old(Completions(events)) + if SomeCompletes(rounds[..n]) then 1 else 0
      ensures SomeCompletes(rounds[..n]) ==> result.Stopped?
    {
      assert before + rounds[..0] == before;
      for i := 0 to |rounds|
        invariant Valid(before + rounds[..i])
        invariant forall j :: 0 <= j < i ==> !Ends(rounds[j])
        invariant Completions(events) == old(Completions(events))
      {
        var stop, failed := PollCondition(rounds[i], before + rounds[..i]);
        assert (before + rounds[..i]) + [rounds[i]] == before + rounds[..i + 1];
        if stop {
          assert rounds[..i + 1][i] == rounds[i];
          return if failed then Failed else Stopped, i + 1;
        }
      }
      return Interrupted, |rounds|;
    }

    /** The first poll's time is up: poll on until the maximum age, if there is time left. */
    method PollOn(rounds: seq<Tick>, remaining: bool, ghost before: seq<Tick>) returns (m: nat)
      requires Valid(before)
      modifies this
      ensures m <= |rounds| && Valid(before + rounds[..m]) && timedOut && (!remaining ==> m == 0)
      ensures Completions(events) == old(Completions(events)) + if SomeCompletes(rounds[..m]) then 1 else 0
    {
      Emit(Overdue);
      timedOut := true;
      assert before + rounds[..0] == before;
      m := 0;
      if remaining {
        var result;
        result, m := Poll(rounds, before);
      }
    }

    /**
     * monitorMigrationProgress on a fresh task, up to its removal from the table: `first` and `second` are the rounds
     * the two polls would have time for; `expired` tells whether the first poll's context ended by its deadline, and
     * `remaining` whether there is time left for a second poll.
     */
    method MonitorMigrationProgress(first: seq<Tick>, second: seq<Tick>, expired: bool, remaining: bool)
      returns (n: nat, m: nat)
      requires Valid([]) && !timedOut && Completions(events) == 0
      modifies this
      ensures n <= |first| && m <= |second|
      ensures |Reported(events)| <= 4 && Climbing(Reported(events))
      ensures LastOf(Reported(events)) == Highest(first[..n] + second[..m])
      ensures Completions(events) == if SomeCompletes(first[..n] + second[..m]) then 1 else 0
      ensures m > 0 ==> expired && remaining && timedOut && !SomeCompletes(first[..n])
      ensures n < |first| ==> StopsAt(first, n)
    {
      var result;
      result, n := Poll(first, []);
      m := 0;
      assert [] + first[..n] == first[..n];
      assert first[..n] + second[..0] == first[..n];
      if !result.Stopped? && expired && !timedOut {
        m := PollOn(second, remaining, first[..n]);
      }
      ClimbsAreShort(Reported(events));
      CompletesInParts(first[..n], second[..m]);
    }
  }

  /** Polling ends with round n, the first one that ends it. */
  ghost predicate StopsAt(rounds: seq<Tick>, n: nat) {
    0 < n <= |rounds| && Ends(rounds[n - 1]) && forall i :: 0 <= i < n - 1 ==> !Ends(rounds[i])
  }

  // ---------------------------------------------------------------------------------------------
  // The table of active tasks

  type Tid = nat

  /** A StartMigrationMonitoring call, and the monitor goroutine it may start; both use the monitor's mutex. */
  datatype StartPc = Called | Checking | Registered | Started | Returned
  datatype MonitorPc = Absent | Polling | Removing | Removed | Exited

  datatype Task = Task(disk: string, start: StartPc, monitor: MonitorPc)

  datatype Holder = Starter(t: Tid) | Monitor(t: Tid)

  datatype State = State(tasks: map<Tid, Task>, active: map<string, Tid>, mutex: Option<Holder>)

  datatype Action =
    | Call(t: Tid, disk: string)
    | LockStart(t: Tid) | Refuse(t: Tid) | Register(t: Tid) | Spawn(t: Tid) | UnlockStart(t: Tid)
    | LockMonitor(t: Tid) | Remove(t: Tid) | UnlockMonitor(t: Tid)

  function Put(s: State, t: Tid, task: Task): State {
    s.(tasks := s.tasks[t := task])
  }

  ghost predicate StartAt(s: State, t: Tid, pc: StartPc) {
    t in s.tasks && s.tasks[t].start == pc
  }

  ghost predicate MonitorAt(s: State, t: Tid, pc: MonitorPc) {
    t in s.tasks && s.tasks[t].monitor == pc
  }

  /** Refuse covers a disk that is already monitored and a PersistentVolume that cannot be used. */
  ghost predicate Step(s: State, a: Action, s': State) {
    match a
    case Call(t, disk) => t !in s.tasks && s' == Put(s, t, Task(disk, Called, Absent))
    case LockStart(t) =>
      StartAt(s, t, Called) && s.mutex.None?
        && s' == Put(s, t, s.tasks[t].(start := Checking)).(mutex := Some(Starter(t)))
    case Refuse(t) => StartAt(s, t, Checking) && s' == Put(s, t, s.tasks[t].(start := Returned)).(mutex := None)
    case Register(t) =>
      && StartAt(s, t, Checking) && s.tasks[t].disk !in s.active
      && s' == Put(s, t, s.tasks[t].(start := Registered)).(active := s.active[s.tasks[t].disk := t])
    case Spawn(t) => StartAt(s, t, Registered) && s' == Put(s, t, s.tasks[t].(start := Started, monitor := Polling))
    case UnlockStart(t) => StartAt(s, t, Started) && s' == Put(s, t, s.tasks[t].(start := Returned)).(mutex := None)
    case LockMonitor(t) =>
      MonitorAt(s, t, Polling) && s.mutex.None?
        && s' == Put(s, t, s.tasks[t].(monitor := Removing)).(mutex := Some(Monitor(t)))
    case Remove(t) =>
      MonitorAt(s, t, Removing)
        && s' == Put(s, t, s.tasks[t].(monitor := Removed)).(active := s.active - {s.tasks[t].disk})
    case UnlockMonitor(t) => MonitorAt(s, t, Removed) && s' == Put(s, t, s.tasks[t].(monitor := Exited)).(mutex := None)
  }

  /** The mutex holder by where the calls and goroutines are. */
  predicate StarterHolds(task: Task) {
    task.start.Checking? || task.start.Registered? || task.start.Started?
  }

  predicate MonitorHolds(task: Task) {
    task.monitor.Removing? || task.monitor.Removed?
  }

  /** The disk is listed for this task: from registration to removal. */
  predicate Listed(task: Task) {
    task.start.Registered? || task.monitor.Polling? || task.monitor.Removing?
  }

  predicate Alive(task: Task) {
    !task.monitor.Absent? && !task.monitor.Exited?
  }

  ghost predicate AliveFor(s: State, t: Tid, disk: string) {
    t in s.tasks && s.tasks[t].disk == disk && Alive(s.tasks[t])
  }

  ghost predicate TaskInv(s: State, t: Tid, task: Task) {
    && (StarterHolds(task) <==> s.mutex == Some(Starter(t)))
    && (MonitorHolds(task) <==> s.mutex == Some(Monitor(t)))
    && (Listed(task) <==> task.disk in s.active && s.active[task.disk] == t)
    && (task.start.Called? || task.start.Checking? || task.start.Registered? ==> task.monitor.Absent?)
  }

  ghost predicate Inv(s: State) {
    && (forall t :: t in s.tasks ==> TaskInv(s, t, s.tasks[t]))
    && (forall d :: d in s.active ==> s.active[d] in s.tasks && s.tasks[s.active[d]].disk == d)
    && (s.mutex.Some? ==> s.mutex.value.t in s.tasks)
  }

  lemma StepKeepsInv(s: State, a: Action, s': State)
    requires Inv(s) && Step(s, a, s')
    ensures Inv(s')
  {
    forall u | u in s'.tasks ensures TaskInv(s', u, s'.tasks[u]) {
      if u in s.tasks {
        assert TaskInv(s, u, s.tasks[u]);
      }
      if a.t in s.tasks {
        assert TaskInv(s, a.t, s.tasks[a.t]);
      }
    }
  }

  ghost predicate Next(s: State, s': State) {
    exists a :: Step(s, a, s')
  }

  ghost predicate IsRun(run: seq<State>) {
    && run != [] && run[0] == State(map[], map[], None)
    && forall i :: 0 < i < |run| ==> Next(run[i - 1], run[i])
  }

  lemma {:induction false} RunsKeepInv(run: seq<State>, i: nat)
    requires IsRun(run) && i < |run|
    ensures Inv(run[i])
  {
    if i > 0 {
      RunsKeepInv(run, i - 1);
      assert Next(run[i - 1], run[i]);
      var a :| Step(run[i - 1], a, run[i]);
      StepKeepsInv(run[i - 1], a, run[i]);
    }
  }

  /** Whoever can take the mutex sees a disk listed exactly when one goroutine for it is alive, and never two. */
  lemma ListedMeansMonitored(run: seq<State>, i: nat, disk: string)
    requires IsRun(run) && i < |run| && run[i].mutex.None?
    ensures disk in run[i].active <==> exists t :: AliveFor(run[i], t, disk)
    ensures forall t, u :: AliveFor(run[i], t, disk) && AliveFor(run[i], u, disk) ==> t == u
  {
    RunsKeepInv(run, i);
    var s := run[i];
    forall t ensures AliveFor(s, t, disk) <==> disk in s.active && s.active[disk] == t {
      if t in s.tasks {
        assert TaskInv(s, t, s.tasks[t]);
      }
    }
    if disk in s.active {
      assert AliveFor(s, s.active[disk], disk);
    }
  }

  /** Even inside the mutex there are never two goroutines polling for one disk. */
  lemma OneMonitorPerDisk(run: seq<State>, i: nat, t: Tid, u: Tid)
    requires IsRun(run) && i < |run| && MonitorAt(run[i], t, Polling) && MonitorAt(run[i], u, Polling)
    requires run[i].tasks[t].disk == run[i].tasks[u].disk
    ensures t == u
  {
    RunsKeepInv(run, i);
    assert TaskInv(run[i], t, run[i].tasks[t]) && TaskInv(run[i], u, run[i].tasks[u]);
  }
}
