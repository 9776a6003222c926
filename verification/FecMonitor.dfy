/** The timer, the work item and the stop flag of the FEC monitor under every interleaving
    (ctrl/sl_ctrl_link_fec_priv.c). Any number of threads start and stop it; every stop is a
    sl_ctrl_link_fec_mon_stop followed by cancel_work_sync. */
module FecMonitor {

  /** Where a thread is: about to read the period it starts with, about to clear the flag and arm the
      timer, about to raise the flag, to delete the timer, to cancel the work, waiting for the work to end.
      `epoch` is the number of starts there had been when the flag was raised. */
  datatype Thread =
    | AtRead | AtArm | AtFlag | AtDelete(epoch: nat) | AtCancel(epoch: nat) | Waiting(epoch: nat)

  datatype Work =
    | NotRunning | AtPeriod | AtPml | AtStop | AtGet | AtStore | AtCalc | AtCheck
    | AtPeriodAgain | AtStopAgain | AtRearm

  /** `starts` counts the times the monitor was armed; `quietAt` is that count when a stop last
      returned with no start since it raised the flag; `samples` and `checks` count the work done. */
  datatype State = State(
    stop: bool, period: nat, armed: bool, firing: bool, pending: bool, work: Work,
    threads: map<nat, Thread>, starts: nat, quietAt: int, samples: nat, checks: nat)

  datatype Step =
    | BeginStart(t: nat, period: nat) | ReadStartPeriod(t: nat) | Arm(t: nat)
    | BeginStop(t: nat) | RaiseFlag(t: nat) | DeleteTimer(t: nat) | CancelWork(t: nat) | CancelReturns(t: nat)
    | TimerFires | TimerQueues
    | WorkStarts | ReadPeriod | LookPml(running: bool) | ReadStop | GetData(ok: bool) | Store | Calc
    | Check(fails: bool) | ReadPeriodAgain | ReadStopAgain | Rearm

  predicate Enabled(s: State, st: Step) {
    match st
    case BeginStart(t, _) => t !in s.threads
    case ReadStartPeriod(t) => t in s.threads && s.threads[t].AtRead?
    case Arm(t) => t in s.threads && s.threads[t].AtArm?
    case BeginStop(t) => t !in s.threads
    case RaiseFlag(t) => t in s.threads && s.threads[t].AtFlag?
    case DeleteTimer(t) => t in s.threads && s.threads[t].AtDelete? && !s.firing
    case CancelWork(t) => t in s.threads && s.threads[t].AtCancel?
    case CancelReturns(t) => t in s.threads && s.threads[t].Waiting? && s.work.NotRunning?
    case TimerFires => s.armed && !s.firing
    case TimerQueues => s.firing
    case WorkStarts => s.pending && s.work.NotRunning?
    case ReadPeriod => s.work.AtPeriod?
    case LookPml(_) => s.work.AtPml?
    case ReadStop => s.work.AtStop?
    case GetData(_) => s.work.AtGet?
    case Store => s.work.AtStore?
    case Calc => s.work.AtCalc?
    case Check(_) => s.work.AtCheck?
    case ReadPeriodAgain => s.work.AtPeriodAgain?
    case ReadStopAgain => s.work.AtStopAgain?
    case Rearm => s.work.AtRearm?
  }

  function Next(s: State, st: Step): State
    requires Enabled(s, st)
  {
    match st
    case BeginStart(t, period) => s.(period := period, threads := s.threads[t := AtRead])
    case ReadStartPeriod(t) => s.(threads := s.threads[t := if s.period == 0 then AtFlag else AtArm])
    case Arm(t) =>
      s.(stop := false, armed := true, starts := s.starts + 1, threads := s.threads - {t})
    case BeginStop(t) => s.(threads := s.threads[t := AtFlag])
    case RaiseFlag(t) =>
      s.(stop := true, threads := s.threads[t := if s.stop then AtCancel(s.starts) else AtDelete(s.starts)])
    case DeleteTimer(t) => s.(armed := false, threads := s.threads[t := AtCancel(s.threads[t].epoch)])
    case CancelWork(t) => s.(pending := false, threads := s.threads[t := Waiting(s.threads[t].epoch)])
    case CancelReturns(t) =>
      s.(threads := s.threads - {t},
         quietAt := if s.threads[t].epoch == s.starts then s.starts else s.quietAt)
    case TimerFires => s.(armed := false, firing := true)
    case TimerQueues => s.(firing := false, pending := true)
    case WorkStarts => s.(pending := false, work := AtPeriod)
    case ReadPeriod => s.(work := if s.period == 0 then NotRunning else AtPml)
    case LookPml(running) => s.(work := if running then AtRearm else AtStop)
    case ReadStop => s.(work := if s.stop then NotRunning else AtGet)
    case GetData(ok) => s.(work := if ok then AtStore else AtRearm)
    case Store => s.(samples := s.samples + 1, work := AtCalc)
    case Calc => s.(work := AtCheck)
    case Check(fails) => s.(checks := s.checks + 1, work := if fails then NotRunning else AtPeriodAgain)
    case ReadPeriodAgain => s.(work := if s.period == 0 then NotRunning else AtStopAgain)
    case ReadStopAgain => s.(work := if s.stop then NotRunning else AtRearm)
    case Rearm => s.(armed := true, work := NotRunning)
  }

  predicate Follows(s: State, run: seq<Step>)
    decreases |run|
  {
    run == [] || (Enabled(s, run[0]) && Follows(Next(s, run[0]), run[1..]))
  }

  function After(s: State, run: seq<Step>): State
    requires Follows(s, run)
    decreases |run|
  {
    if run == [] then s else After(Next(s, run[0]), run[1..])
  }

  /** The monitor of a new link; the flag is down though the timer never ran. */
  predicate Initial(s: State) {
    s == State(false, s.period, false, false, false, NotRunning, map[], 0, -1, 0, 0)
  }

  predicate Quiet(s: State) { s.quietAt == s.starts }

  /** The work item has passed its look at the flag and not yet done its check. */
  predicate Sampling(w: Work) { w.AtGet? || w.AtStore? || w.AtCalc? || w.AtCheck? }

  predicate Stopping(t: Thread) { t.AtDelete? || t.AtCancel? || t.Waiting? }

  predicate Inv(s: State) {
    && s.quietAt <= s.starts
    && (forall t :: t in s.threads && Stopping(s.threads[t]) ==>
         s.threads[t].epoch <= s.starts && (s.threads[t].epoch == s.starts ==> s.stop))
    && (Quiet(s) ==> s.stop && !Sampling(s.work))
  }

  lemma StepKeeps(s: State, st: Step)
    requires Inv(s) && Enabled(s, st)
    ensures Inv(Next(s, st))
  {
  }

  lemma {:induction false} RunKeeps(s: State, run: seq<Step>)
    requires Inv(s) && Follows(s, run)
    ensures Inv(After(s, run))
    decreases |run|
  {
    if run != [] {
      StepKeeps(s, run[0]);
      RunKeeps(Next(s, run[0]), run[1..]);
    }
  }

  predicate NoStart(run: seq<Step>) {
    forall k :: 0 <= k < |run| ==> !run[k].Arm?
  }

  lemma {:induction false} QuietStays(s: State, run: seq<Step>)
    requires Inv(s) && Quiet(s) && Follows(s, run) && NoStart(run)
    ensures Quiet(After(s, run))
    ensures After(s, run).samples == s.samples && After(s, run).checks == s.checks
    decreases |run|
  {
    if run != [] {
      StepKeeps(s, run[0]);
      assert forall k :: 0 <= k < |run[1..]| ==> run[1..][k] == run[k + 1];
      QuietStays(Next(s, run[0]), run[1..]);
    }
  }

  /** Once a stop and its cancel have returned, with no start since the flag was raised, no sample is
      stored and no limit is checked until the monitor is armed again, whatever runs in between. */
  lemma Quiescence(s: State, before: seq<Step>, t: nat, run: seq<Step>)
    requires Initial(s) && Follows(s, before) && Enabled(After(s, before), CancelReturns(t))
    requires After(s, before).threads[t].epoch == After(s, before).starts
    requires Follows(Next(After(s, before), CancelReturns(t)), run) && NoStart(run)
    ensures var u := After(s, before); var u' := After(Next(u, CancelReturns(t)), run);
            u'.samples == u.samples && u'.checks == u.checks
  {
    RunKeeps(s, before);
    StepKeeps(After(s, before), CancelReturns(t));
    QuietStays(Next(After(s, before), CancelReturns(t)), run);
  }

  // ------------------------------------------------------------------ what is left running

  predicate MonitorStep(st: Step) {
    || st.TimerFires? || st.TimerQueues? || st.WorkStarts? || st.ReadPeriod? || st.LookPml? || st.ReadStop?
    || st.GetData? || st.Store? || st.Calc? || st.Check? || st.ReadPeriodAgain? || st.ReadStopAgain? || st.Rearm?
  }

  /** How many timer and work steps a stopped monitor can still take when no recovery runs. */
  function Residue(s: State): nat {
    (if s.armed then 6 else 0) + (if s.firing then 5 else 0) + (if s.pending then 4 else 0)
    + match s.work
      case NotRunning => 0
      case AtPeriod => 3
      case AtPml => 2
      case AtStop => 1
      case AtPeriodAgain => 2
      case AtStopAgain => 1
      case AtRearm => 7
      case _ => 0
  }

  function MonitorSteps(run: seq<Step>): nat {
    if run == [] then 0 else (if MonitorStep(run[0]) then 1 else 0) + MonitorSteps(run[1..])
  }

  lemma StepRunsDown(s: State, st: Step)
    requires Inv(s) && Quiet(s) && Enabled(s, st) && !st.Arm? && st != LookPml(true)
    ensures Inv(Next(s, st)) && Quiet(Next(s, st))
    ensures Residue(Next(s, st)) + (if MonitorStep(st) then 1 else 0) <= Residue(s)
  {
    StepKeeps(s, st);
  }

  lemma {:induction false} RunsDown(s: State, run: seq<Step>)
    requires Inv(s) && Quiet(s) && Follows(s, run) && NoStart(run)
    requires forall k :: 0 <= k < |run| ==> run[k] != LookPml(true)
    ensures Residue(After(s, run)) + MonitorSteps(run) <= Residue(s)
    decreases |run|
  {
    if run != [] {
      StepRunsDown(s, run[0]);
      assert forall k :: 0 <= k < |run[1..]| ==> run[1..][k] == run[k + 1];
      RunsDown(Next(s, run[0]), run[1..]);
    }
  }

  /** A stopped monitor comes to rest: in a run with no new start and no recovery its timer and work
      take at most 22 more steps, however the threads go on stopping it. */
  lemma StoppedRunsDown(s: State, before: seq<Step>, run: seq<Step>)
    requires Initial(s) && Follows(s, before) && Quiet(After(s, before))
    requires Follows(After(s, before), run) && NoStart(run)
    requires forall k :: 0 <= k < |run| ==> run[k] != LookPml(true)
    ensures MonitorSteps(run) <= 22
  {
    RunKeeps(s, before);
    RunsDown(After(s, before), run);
  }

  lemma {:induction false} OneMore(s: State, run: seq<Step>, st: Step)
    requires Follows(s, run) && Enabled(After(s, run), st)
    ensures Follows(s, run + [st]) && After(s, run + [st]) == Next(After(s, run), st)
    decreases |run|
  {
    if run == [] {
      assert [st][1..] == [];
      assert run + [st] == [st];
    } else {
      assert (run + [st])[1..] == run[1..] + [st];
      OneMore(Next(s, run[0]), run[1..], st);
    }
  }

  /** The work can arm the timer after the stop deleted it: a stopped monitor may still have its timer
      running, and while recovery runs the timer arms itself anew. */
  lemma StaleTimer(s: State) returns (before: seq<Step>, again: seq<Step>)
    requires Initial(s)
    ensures Follows(s, before) && Quiet(After(s, before)) && After(s, before).armed
    ensures Follows(After(s, before), again) && NoStart(again) && |again| > 0
    ensures After(After(s, before), again).armed && Quiet(After(After(s, before), again))
  {
    before := [];
    OneMore(s, before, BeginStart(1, 500)); before := before + [BeginStart(1, 500)];
    OneMore(s, before, ReadStartPeriod(1)); before := before + [ReadStartPeriod(1)];
    OneMore(s, before, Arm(1)); before := before + [Arm(1)];
    OneMore(s, before, TimerFires); before := before + [TimerFires];
    OneMore(s, before, TimerQueues); before := before + [TimerQueues];
    OneMore(s, before, WorkStarts); before := before + [WorkStarts];
    OneMore(s, before, ReadPeriod); before := before + [ReadPeriod];
    OneMore(s, before, LookPml(true)); before := before + [LookPml(true)];
    OneMore(s, before, BeginStop(2)); before := before + [BeginStop(2)];
    OneMore(s, before, RaiseFlag(2)); before := before + [RaiseFlag(2)];
    OneMore(s, before, DeleteTimer(2)); before := before + [DeleteTimer(2)];
    OneMore(s, before, CancelWork(2)); before := before + [CancelWork(2)];
    OneMore(s, before, Rearm); before := before + [Rearm];
    OneMore(s, before, CancelReturns(2)); before := before + [CancelReturns(2)];
    var u := After(s, before);
    again := [];
    OneMore(u, again, TimerFires); again := again + [TimerFires];
    OneMore(u, again, TimerQueues); again := again + [TimerQueues];
    OneMore(u, again, WorkStarts); again := again + [WorkStarts];
    OneMore(u, again, ReadPeriod); again := again + [ReadPeriod];
    OneMore(u, again, LookPml(true)); again := again + [LookPml(true)];
    OneMore(u, again, Rearm); again := again + [Rearm];
  }

  // ------------------------------------------------------------------ what keeps running

  /** No thread is in a stop or about to begin one. */
  predicate NoStop(s: State) {
    forall t :: t in s.threads ==> s.threads[t].AtRead? || s.threads[t].AtArm?
  }

  /** The next pass has somebody coming for it. */
  predicate Coming(s: State) { s.armed || s.firing || s.pending || !s.work.NotRunning? }

  predicate Alive(s: State) { !s.stop && s.period != 0 && NoStop(s) && Coming(s) }

  /** A step that stops the monitor, takes away its period, or finds a limit crossed. */
  predicate Ends(st: Step) { st.BeginStop? || (st.BeginStart? && st.period == 0) || st == Check(true) }

  predicate GoesOn(run: seq<Step>) { forall k :: 0 <= k < |run| ==> !Ends(run[k]) }

  lemma StepAlive(s: State, st: Step)
    requires Alive(s) && Enabled(s, st) && !Ends(st)
    ensures Alive(Next(s, st))
  {
  }

  lemma {:induction false} RunAlive(s: State, run: seq<Step>)
    requires Alive(s) && Follows(s, run) && GoesOn(run)
    ensures Alive(After(s, run))
    decreases |run|
  {
    if run != [] {
      StepAlive(s, run[0]);
      assert forall k :: 0 <= k < |run[1..]| ==> run[1..][k] == run[k + 1];
      RunAlive(Next(s, run[0]), run[1..]);
    }
  }

  /** Once armed with a period and with no stop on its way, the monitor goes on: whatever runs in between, until
      it is stopped, its period is taken away or a limit is crossed, the timer is armed or firing, the work is
      pending, or a pass is on. */
  lemma KeepsGoing(s: State, before: seq<Step>, t: nat, run: seq<Step>)
    requires Initial(s) && Follows(s, before) && Enabled(After(s, before), Arm(t))
    requires NoStop(After(s, before)) && After(s, before).period != 0
    requires Follows(Next(After(s, before), Arm(t)), run) && GoesOn(run)
    ensures Alive(After(Next(After(s, before), Arm(t)), run))
  {
    RunAlive(Next(After(s, before), Arm(t)), run);
  }

  /** The step the timer or the work takes next when nothing is wrong. */
  function MonitorNext(s: State): Step
    requires Coming(s)
  {
    match s.work
    case NotRunning => if s.pending then WorkStarts else if s.firing then TimerQueues else TimerFires
    case AtPeriod => ReadPeriod
    case AtPml => LookPml(false)
    case AtStop => ReadStop
    case AtGet => GetData(true)
    case AtStore => Store
    case AtCalc => Calc
    case AtCheck => Check(false)
    case AtPeriodAgain => ReadPeriodAgain
    case AtStopAgain => ReadStopAgain
    case AtRearm => Rearm
  }

  /** How many such steps until the next sample is stored. */
  function Wait(s: State): nat {
    match s.work
    case AtStore => 1
    case AtGet => 2
    case AtStop => 3
    case AtPml => 4
    case AtPeriod => 5
    case NotRunning => if s.pending then 6 else if s.firing then 7 else 8
    case AtRearm => 9
    case AtStopAgain => 10
    case AtPeriodAgain => 11
    case AtCheck => 12
    case AtCalc => 13
  }

  lemma MonitorStepTaken(s: State)
    requires Alive(s)
    ensures var st := MonitorNext(s); Enabled(s, st) && MonitorStep(st) && !Ends(st) && Alive(Next(s, st))
    ensures var s' := Next(s, MonitorNext(s));
      && (s.work.AtStore? ==> s'.samples == s.samples + 1 && s'.work.AtCalc?)
      && (!s.work.AtStore? ==> s'.samples == s.samples && Wait(s') < Wait(s))
      && s'.checks == s.checks + (if s.work.AtCheck? then 1 else 0)
  {
  }

  lemma {:induction false} NextSample(s: State) returns (run: seq<Step>)
    requires Alive(s)
    ensures Follows(s, run) && forall k :: 0 <= k < |run| ==> MonitorStep(run[k]) && !Ends(run[k])
    ensures var u := After(s, run);
      Alive(u) && u.samples == s.samples + 1 && u.checks >= s.checks && u.work.AtCalc?
    ensures |run| <= Wait(s)
    decreases Wait(s)
  {
    var st := MonitorNext(s);
    MonitorStepTaken(s);
    if s.work.AtStore? {
      run := [st];
      assert [st][1..] == [];
    } else {
      var rest := NextSample(Next(s, st));
      run := [st] + rest;
      assert run[1..] == rest;
    }
  }

  /** A monitor that goes on samples and checks again: from any such state its timer and work alone store one
      more sample and check it, in at most fifteen steps, and then it still goes on. */
  lemma SamplesAgain(s: State, before: seq<Step>, t: nat, since: seq<Step>) returns (run: seq<Step>)
    requires Initial(s) && Follows(s, before) && Enabled(After(s, before), Arm(t))
    requires NoStop(After(s, before)) && After(s, before).period != 0
    requires Follows(Next(After(s, before), Arm(t)), since) && GoesOn(since)
    ensures var u := After(Next(After(s, before), Arm(t)), since);
      && Follows(u, run) && (forall k :: 0 <= k < |run| ==> MonitorStep(run[k])) && |run| <= 15
      && var u' := After(u, run); u'.samples == u.samples + 1 && u'.checks > u.checks && Alive(u')
  {
    KeepsGoing(s, before, t, since);
    var u := After(Next(After(s, before), Arm(t)), since);
    run := NextSample(u);
    MonitorStepTaken(After(u, run));
    OneMore(u, run, Calc);
    run := run + [Calc];
    MonitorStepTaken(After(u, run));
    OneMore(u, run, Check(false));
    run := run + [Check(false)];
  }

  predicate Dead(s: State) { !s.armed && !s.firing && !s.pending && s.work.NotRunning? }

  lemma {:induction false} DeadStays(s: State, run: seq<Step>)
    requires Dead(s) && Follows(s, run) && NoStart(run)
    ensures Dead(After(s, run)) && After(s, run).samples == s.samples && After(s, run).checks == s.checks
    decreases |run|
  {
    if run != [] {
      assert forall k :: 0 <= k < |run[1..]| ==> run[1..][k] == run[k + 1];
      DeadStays(Next(s, run[0]), run[1..]);
    }
  }

  /** A pass that finds a limit crossed does not arm the timer again: with nothing else armed or queued no
      sample is stored and no limit checked until the monitor is armed anew. */
  lemma CrossedEnds(s: State, run: seq<Step>)
    requires Enabled(s, Check(true)) && !s.armed && !s.firing && !s.pending
    requires Follows(Next(s, Check(true)), run) && NoStart(run)
    ensures var u := After(Next(s, Check(true)), run);
      && u.samples == s.samples && u.checks == s.checks + 1 && Dead(u)
  {
    DeadStays(Next(s, Check(true)), run);
  }

  // ------------------------------------------------------------------ a period of zero

  /** A start that finds no period stops the monitor instead: with no timer firing, no pass on and no other
      thread in between, it leaves the monitor quiet. */
  lemma ZeroStartStops(s: State, before: seq<Step>, t: nat) returns (run: seq<Step>)
    requires Initial(s) && Follows(s, before) && t !in After(s, before).threads
    requires !After(s, before).firing && After(s, before).work.NotRunning? && !After(s, before).stop
    ensures Follows(After(s, before), run) && NoStart(run) && |run| == 6 && run[0] == BeginStart(t, 0)
    ensures var u := After(After(s, before), run); Quiet(u) && !u.armed && !u.pending && t !in u.threads
  {
    var u := After(s, before);
    run := [];
    OneMore(u, run, BeginStart(t, 0)); run := run + [BeginStart(t, 0)];
    OneMore(u, run, ReadStartPeriod(t)); run := run + [ReadStartPeriod(t)];
    OneMore(u, run, RaiseFlag(t)); run := run + [RaiseFlag(t)];
    OneMore(u, run, DeleteTimer(t)); run := run + [DeleteTimer(t)];
    OneMore(u, run, CancelWork(t)); run := run + [CancelWork(t)];
    OneMore(u, run, CancelReturns(t)); run := run + [CancelReturns(t)];
  }

  predicate NoPeriod(run: seq<Step>) { forall k :: 0 <= k < |run| ==> !(run[k].BeginStart? && run[k].period != 0) }

  /** How many timer and work steps are left without a period. */
  function ZeroResidue(s: State): nat {
    (if s.armed then 4 else 0) + (if s.firing then 3 else 0) + (if s.pending then 2 else 0)
    + match s.work
      case NotRunning => 0
      case AtPeriod => 1
      case AtPml => 8
      case AtStop => 7
      case AtGet => 6
      case AtStore => 4
      case AtCalc => 3
      case AtCheck => 2
      case AtPeriodAgain => 1
      case AtStopAgain => 6
      case AtRearm => 5
  }

  lemma ZeroMonitorStep(s: State, st: Step)
    requires s.period == 0 && Enabled(s, st) && MonitorStep(st)
    ensures Next(s, st).period == 0 && ZeroResidue(Next(s, st)) < ZeroResidue(s)
  {
  }

  lemma ZeroThreadStep(s: State, st: Step)
    requires s.period == 0 && Enabled(s, st) && !MonitorStep(st) && !st.Arm? && !(st.BeginStart? && st.period != 0)
    ensures Next(s, st).period == 0 && ZeroResidue(Next(s, st)) <= ZeroResidue(s)
  {
  }

  lemma {:induction false} ZeroRunsDown(s: State, run: seq<Step>)
    requires s.period == 0 && Follows(s, run) && NoStart(run) && NoPeriod(run)
    ensures ZeroResidue(After(s, run)) + MonitorSteps(run) <= ZeroResidue(s)
    decreases |run|
  {
    if run != [] {
      assert forall k :: 0 <= k < |run[1..]| ==> run[1..][k] == run[k + 1];
      if MonitorStep(run[0]) { ZeroMonitorStep(s, run[0]); } else { ZeroThreadStep(s, run[0]); }
      ZeroRunsDown(Next(s, run[0]), run[1..]);
    }
  }

  /** Without a period the monitor comes to rest though nobody stops it, and even while recovery runs: at most
      seventeen timer and work steps are left. */
  lemma NoPeriodRunsDown(s: State, run: seq<Step>)
    requires s.period == 0 && Follows(s, run) && NoStart(run) && NoPeriod(run)
    ensures MonitorSteps(run) <= 17
  {
    ZeroRunsDown(s, run);
  }
}
