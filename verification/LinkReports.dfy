/** What a link's counters and clocks report, in every run of the two layers. */
module LinkReports {
  import opened Common
  import opened LinkModel
  import opened LinkSession
  import opened LinkTheorems

  // ------------------------------------------------------------------ the counters

  /** How often n was enqueued. */
  function Times(log: seq<Event>, n: Notif): nat
    decreases |log|
  {
    if log == [] then 0 else Times(log[..|log| - 1], n) + Bit(log[|log| - 1] == Notified(n))
  }

  lemma TimesMore(log: seq<Event>, v: Event, n: Notif)
    ensures Times(log + [v], n) == Times(log, n) + Bit(v == Notified(n))
  {
    assert (log + [v])[..|log|] == log;
  }

  lemma TimesEnding(log: seq<Event>, m: Notif, n: Notif)
    ensures Times(log + Ending(m), n) == Times(log, n) + Bit(m == n)
  {
    TimesMore(log, Flushed, n);
    TimesMore(log + [Flushed], StateDown, n);
    TimesMore(log + [Flushed] + [StateDown], Completed, n);
    TimesMore(log + [Flushed] + [StateDown] + [Completed], Notified(m), n);
    assert log + Ending(m) == log + [Flushed] + [StateDown] + [Completed] + [Notified(m)];
  }

  /** What a step wrote to the log when it enqueued n, if anything. */
  predicate Wrote(log: seq<Event>, log': seq<Event>, n: Option<Notif>) {
    match n
    case None => log' == log
    case Some(m) => log' == log + (if Terminal(m) then Ending(m) else [Notified(m)])
  }

  /** What it counted then. */
  predicate Counted(c: Counters, c': Counters, n: Option<Notif>) {
    && c'.up == c.up + Bit(n == Some(LinkUpNotif))
    && c'.down == c.down + Bit(n == Some(DownNotif) || n == Some(AsyncDownNotif))
    && c'.upFail - c.upFail == c'.upRetry - c.upRetry + Bit(n == Some(UpFailNotif))
  }

  predicate Tallied(l: Link, l': Link, n: Option<Notif>) {
    Wrote(l.log, l'.log, n) && Counted(l.ctrl.counters, l'.ctrl.counters, n)
  }

  function Enqueued(l: Link, l': Link): Option<Notif> {
    if |l'.log| > |l.log| && l'.log[|l'.log| - 1].Notified? then Some(l'.log[|l'.log| - 1].n) else None
  }

  lemma FailureTallied(l: Link, core: Core, e: Env)
    ensures var l' := UpCallback(l.(core := core), CoreDown, e).0; Tallied(l, l', Enqueued(l, l'))
  {
  }

  lemma CommandTallied(l: Link, st: Step, e: Env)
    requires Command(st)
    ensures var l' := Effect(l, st, e); Tallied(l, l', Enqueued(l, l'))
  {
  }

  lemma DownTallied(l: Link, st: Step, e: Env)
    requires st.CancelEnds? || st.DownEnds? || st.FaultEnds?
    ensures var l' := Effect(l, st, e); Tallied(l, l', Enqueued(l, l'))
  {
  }

  lemma StepTallied(l: Link, st: Step, e: Env)
    ensures var l' := Effect(l, st, e); Tallied(l, l', Enqueued(l, l'))
  {
    match st
    case UpFailEnds => FailureTallied(l, l.core.(state := CoreDown, queued := l.core.queued - {UpFailWork}), e);
    case TimeoutEnds => FailureTallied(l, l.core.(state := CoreDown, queued := l.core.queued - {UpFailWork}), e);
    case CancelReports =>
      FailureTallied(l, l.core.(state := CoreDown, queued := l.core.queued - {UpCancelWork}, cancelTail := true), e);
    case CancelEnds(_) => DownTallied(l, st, e);
    case DownEnds(_) => DownTallied(l, st, e);
    case FaultEnds => DownTallied(l, st, e);
    case _ => if Command(st) { CommandTallied(l, st, e); }
  }

  /** What the counters say of the log. */
  predicate CountersSay(l: Link) {
    var c := l.ctrl.counters;
    && c.up == Times(l.log, LinkUpNotif)
    && c.down == Times(l.log, DownNotif) + Times(l.log, AsyncDownNotif)
    && c.upFail == c.upRetry + Times(l.log, UpFailNotif)
  }

  lemma WroteTimes(log: seq<Event>, log': seq<Event>, n: Option<Notif>, m: Notif)
    requires Wrote(log, log', n)
    ensures Times(log', m) == Times(log, m) + Bit(n == Some(m))
  {
    if n.Some? {
      if Terminal(n.value) { TimesEnding(log, n.value, m); } else { TimesMore(log, Notified(n.value), m); }
    }
  }

  lemma CountedSays(l: Link, l': Link, n: Option<Notif>)
    requires CountersSay(l) && Counted(l.ctrl.counters, l'.ctrl.counters, n)
    requires forall m :: Times(l'.log, m) == Times(l.log, m) + Bit(n == Some(m))
    ensures CountersSay(l')
  {
  }

  lemma StepSays(l: Link, st: Step, e: Env)
    requires CountersSay(l)
    ensures CountersSay(Effect(l, st, e))
  {
    var l' := Effect(l, st, e);
    var n := Enqueued(l, l');
    StepTallied(l, st, e);
    forall m ensures Times(l'.log, m) == Times(l.log, m) + Bit(n == Some(m)) {
      WroteTimes(l.log, l'.log, n, m);
    }
    CountedSays(l, l', n);
  }

  lemma {:induction false} RunTallied(w: World, run: Run)
    requires CountersSay(w.link) && Follows(w, run)
    ensures CountersSay(After(w, run).link)
    decreases |run|
  {
    if run != [] {
      StepSays(w.link, run[0].0, run[0].1);
      RunTallied(Next(w, run[0]), run[1..]);
    }
  }

  /** In every run LINK_UP counts the LINK_UP notifications, LINK_DOWN those of either down, and a failed
      attempt that was not tried again has announced UP_FAIL. */
  lemma CountersTold(w: World, run: Run)
    requires Initial(w) && Follows(w, run)
    ensures CountersSay(After(w, run).link)
  {
    RunTallied(w, run);
  }

  // ------------------------------------------------------------------ the clocks of a link that is UP

  predicate NoAsync(run: Run) { forall k :: 0 <= k < |run| ==> !run[k].0.Async? }

  lemma StepClock(w: World, st: Step, e: Env)
    requires Inv(w) && Enabled(w, st, e) && !StartsSession(w.link, st) && !st.Async?
    ensures var l, l' := w.link, Effect(w.link, st, e);
      && (l'.ctrl.state == CtrlStarting ==>
           l.ctrl.state == CtrlStarting && l'.ctrl.clock.start == l.ctrl.clock.start)
      && (l.ctrl.state != CtrlStarting && l'.ctrl.state == CtrlUp ==>
           l.ctrl.state == CtrlUp && l'.ctrl.clock == l.ctrl.clock)
  {
  }

  /** Without async-downs the clock of a session starts once, and rests while the link is UP. */
  lemma {:induction false} RunClock(w: World, run: Run)
    requires Inv(w) && Follows(w, run) && OneSession(w, run) && NoAsync(run)
    ensures var l, l' := w.link, After(w, run).link;
      && (l'.ctrl.state == CtrlStarting ==>
           l.ctrl.state == CtrlStarting && l'.ctrl.clock.start == l.ctrl.clock.start)
      && (l.ctrl.state != CtrlStarting && l'.ctrl.state == CtrlUp ==>
           l.ctrl.state == CtrlUp && l'.ctrl.clock == l.ctrl.clock)
    decreases |run|
  {
    if run != [] {
      StepClock(w, run[0].0, run[0].1);
      StepKeeps(w, run[0].0, run[0].1);
      assert forall k :: 0 <= k < |run[1..]| ==> run[1..][k] == run[k + 1];
      RunClock(Next(w, run[0]), run[1..]);
    }
  }

  /** What the clocks of a link that is UP tell at time t: `total` for the time it took, `up` for the time
      since. */
  predicate Tells(c: Clock, total: int, up: int, t: int) {
    c.start == 0 && c.elapsed == total && c.up != 0 && t - c.up == up
  }

  lemma SuccessClock(w: World, started: int, e: Env)
    requires Inv(w) && Enabled(w, Success, e)
    requires w.link.ctrl.state == CtrlStarting ==> w.link.ctrl.clock.start == started
    ensures var l' := Effect(w.link, Success, e); Tells(l'.ctrl.clock, e.t1 - started, 0, e.t2)
  {
  }

  lemma Started(w0: World, before: Run, e: Env)
    requires Initial(w0) && Follows(w0, before)
    requires Enabled(After(w0, before), Up, e) && LinkUp(After(w0, before).link, e).1 == Ok
    ensures var w := Next(After(w0, before), (Up, e));
      Inv(w) && w.link.ctrl.state == CtrlStarting && w.link.ctrl.clock.start == e.t0
  {
    Reachable(w0, before);
    UpAnswered(w0, before, e);
    UpAccepted(w0, before, e);
    StepKeeps(After(w0, before), Up, e);
  }

  /** A link that has come UP in a session without async-downs tells, as long as it is UP, the time from its
      link-up to its coming up, and the time since. */
  lemma UpTimes(w0: World, before: Run, e: Env, run: Run, e': Env, later: Run, t: int)
    requires Initial(w0) && Follows(w0, before)
    requires Enabled(After(w0, before), Up, e) && LinkUp(After(w0, before).link, e).1 == Ok
    requires var w := Next(After(w0, before), (Up, e));
      Follows(w, run) && OneSession(w, run) && NoAsync(run) && Enabled(After(w, run), Success, e')
    requires var u := Next(After(Next(After(w0, before), (Up, e)), run), (Success, e'));
      Follows(u, later) && OneSession(u, later) && NoAsync(later) && After(u, later).link.ctrl.state == CtrlUp
    ensures var u := Next(After(Next(After(w0, before), (Up, e)), run), (Success, e'));
      Tells(After(u, later).link.ctrl.clock, e'.t1 - e.t0, t - e'.t2, t)
  {
    Started(w0, before, e);
    var w := Next(After(w0, before), (Up, e));
    RunClock(w, run);
    RunKeeps(w, run);
    var v := After(w, run);
    SuccessClock(v, e.t0, e');
    StepKeeps(v, Success, e');
    RunClock(Next(v, (Success, e')), later);
  }
}
