/** What holds of every run of the two layers, from a link just created. */
module LinkTheorems {
  import opened Common
  import opened LinkModel
  import opened LinkSession

  type Run = seq<(Step, Env)>

  lemma {:induction false} RunKeeps(w: World, run: Run)
    requires Inv(w) && Follows(w, run)
    ensures Inv(After(w, run))
    decreases |run|
  {
    if run != [] {
      StepKeeps(w, run[0].0, run[0].1);
      RunKeeps(Next(w, run[0]), run[1..]);
    }
  }

  lemma {:induction false} Extended(w: World, run: Run, st: Step, e: Env)
    requires Follows(w, run) && Enabled(After(w, run), st, e)
    ensures Follows(w, run + [(st, e)]) && After(w, run + [(st, e)]) == Next(After(w, run), (st, e))
    decreases |run|
  {
    if run == [] {
      assert [] + [(st, e)] == [(st, e)] && [(st, e)][1..] == [];
    } else {
      assert (run + [(st, e)])[0] == run[0] && (run + [(st, e)])[1..] == run[1..] + [(st, e)];
      Extended(Next(w, run[0]), run[1..], st, e);
    }
  }

  /** In every reachable state the layers are coupled and every attempt is accounted for. */
  lemma Reachable(w: World, run: Run)
    requires Initial(w) && Follows(w, run)
    ensures Inv(After(w, run))
    ensures Coupled(After(w, run).link) && Conserved(After(w, run).link)
  {
    InitialInv(w);
    RunKeeps(w, run);
  }

  // ------------------------------------------------------------------ commands against core

  /** The state in which core starts an attempt. */
  function Attempting(config: Config): CoreState { if config.autoneg then CoreAn else GoingUp }

  /** A link-up is accepted from DOWN when serdes is ready and core has been configured, and then core goes
      up as configured; one that is not leaves a link that is DOWN as DOWN as it was and announces nothing. */
  lemma UpAccepted(w: World, run: Run, e: Env)
    requires Initial(w) && Follows(w, run)
    ensures var l := After(w, run).link; var (l', rtn) := LinkUp(l, e);
            && (rtn == Ok <==> l.ctrl.state == CtrlDown && e.serdesReady && l.core.state != Unconfigured)
            && (rtn == Ok ==>
                 && l'.ctrl.state == CtrlStarting && AttemptPending(l'.core)
                 && l'.ctrl.config == l.ctrl.config && l'.core.state == Attempting(l.ctrl.config))
            && (rtn != Ok ==> l'.ctrl.state == l.ctrl.state && l'.core == l.core && l'.log == l.log)
  {
    Reachable(w, run);
  }

  /** Core on its way down, by whatever it takes. */
  predicate Leaving(c: Core) { c.state == Canceling || c.state == GoingDown || c.state == Timeout }

  predicate GoingOn(c: Core) { c.state == CoreAn || c.state == GoingUp }

  predicate AtRest(c: Core) { c.state == Configured || c.state == CoreDown }

  /** What core answers in each of its states, and what an accepted call leaves: a link-up starts an attempt
      from rest, a failure report or a cancel stops one, a down stops a link that is UP, a configuration is
      taken at rest or before the first; a call for what is under way already is accepted and changes nothing. */
  lemma CoreAnswers(c: Core, serdesReady: bool, callback: DownCallback, autoneg: bool)
    ensures var (u, rtn) := CoreLinkUp(c, serdesReady);
      && (rtn == EIO <==> !serdesReady) && (rtn == Ok || rtn == EIO || rtn == EBADRQC)
      && (rtn == Ok <==> serdesReady && (GoingOn(c) || c.state == CoreUp || AtRest(c)))
      && u == (if rtn == Ok && AtRest(c) then c.(state := if c.autoneg then CoreAn else GoingUp) else c)
    ensures var (u, rtn) := CoreLinkUpFail(c);
      && (rtn == Ok || rtn == EBADRQC) && (rtn == Ok <==> GoingOn(c) || Leaving(c))
      && u == (if GoingOn(c) then c.(state := GoingDown, queued := c.queued + {UpFailWork}) else c)
    ensures var (u, rtn) := CoreLinkCancel(c, callback);
      && (rtn == EINVAL <==> callback == NoCallback) && (rtn == Ok || rtn == EINVAL || rtn == EBADRQC)
      && (rtn == Ok <==> callback != NoCallback && (GoingOn(c) || Leaving(c)))
      && u == (if rtn == Ok && GoingOn(c)
               then c.(state := Canceling, downCallback := callback, queued := c.queued + {UpCancelWork}) else c)
    ensures var (u, rtn) := CoreLinkDown(c, callback);
      && (rtn == EINVAL <==> callback == NoCallback) && (rtn == Ok || rtn == EINVAL || rtn == EBADRQC)
      && (rtn == Ok <==> callback != NoCallback && (c.state == CoreUp || Leaving(c)))
      && u == (if rtn == Ok && c.state == CoreUp
               then c.(state := GoingDown, downCallback := callback, queued := c.queued + {DownWork}) else c)
    ensures var (u, rtn) := CoreLinkConfigSet(c, autoneg);
      && (rtn == Ok || rtn == EBADRQC) && (rtn == Ok <==> AtRest(c) || c.state == Unconfigured)
      && u == (if rtn == Ok then c.(state := Configured, autoneg := autoneg) else c)
  {
  }

  /** What a link-up that is not accepted is told, and what each leaves of the clocks and counters. */
  lemma UpAnswered(w: World, run: Run, e: Env)
    requires Initial(w) && Follows(w, run)
    ensures var l := After(w, run).link; var (l', rtn) := LinkUp(l, e); var n := l.ctrl.counters;
            && (rtn == EIO <==> l.ctrl.state == CtrlDown && !e.serdesReady)
            && (rtn == EINPROGRESS <==> l.ctrl.state == CtrlStarting)
            && (rtn == EALREADY <==> l.ctrl.state == CtrlUp || l.ctrl.state == CtrlUpDownReq)
            && (rtn == EBADRQC <==> l.ctrl.state == CtrlStopping
                                    || (l.ctrl.state == CtrlDown && e.serdesReady && l.core.state == Unconfigured))
            && l'.ctrl.counters == (if l.ctrl.state == CtrlDown then n.(upCmd := n.upCmd + 1) else n)
            && (rtn == Ok ==> && l'.ctrl.clock.start == e.t0 && l'.ctrl.clock.attemptStart == e.t1
                              && l'.ctrl.clock.attemptCount == 1 && !l'.ctrl.downComplete && !l'.ctrl.isCanceled)
            && (rtn != Ok ==> l'.ctrl.clock == if l.ctrl.state == CtrlDown then CLOCK_ZERO else l.ctrl.clock)
  {
    Reachable(w, run);
  }

  /** What a down and an async-down are told, and the callback an accepted one registers with core. */
  lemma DownAnswered(w: World, run: Run, force: bool)
    requires Initial(w) && Follows(w, run)
    ensures var l := After(w, run).link; var (l', rtn) := LinkDown(l);
            && (rtn == EALREADY <==> l.ctrl.state == CtrlDown)
            && (rtn == EINPROGRESS <==> l.ctrl.state == CtrlStopping)
            && (rtn == Ok && l.core.state == CoreUp ==>
                 l'.core == l.core.(state := GoingDown, downCallback := OnDown, queued := {DownWork}))
            && (rtn == Ok && (l.core.state == GoingUp || l.core.state == CoreAn) ==>
                 l'.core == l.core.(state := Canceling, downCallback := OnDown, queued := {UpCancelWork}))
            && (rtn != Ok || (l.ctrl.state == CtrlStarting && Leaving(l.core)) ==> l'.core == l.core)
            && l'.log == l.log
    ensures var l := After(w, run).link; var (l', rtn) := AsyncDown(l, force);
            && (rtn == EBADRQC <==> l.ctrl.state == CtrlStarting) && (rtn != Ok ==> rtn == EBADRQC)
            && (l'.core != l.core ==>
                 && l.core.state == CoreUp && l'.ctrl.state == CtrlStopping
                 && l'.core == l.core.(state := GoingDown, downCallback := OnAsyncDown, queued := {DownWork}))
            && (l'.core != l.core <==> l.ctrl.state == CtrlUp && (force || !l.ctrl.policy.downReq))
            && l'.ctrl.clock == CLOCK_ZERO
  {
    Reachable(w, run);
  }

  /** A configuration given while the link is not DOWN is rejected, one that is not consistent invalid; both,
      and one that is locked, change nothing. */
  lemma ConfigAnswered(l: Link, config: Config, admin: bool)
    ensures var (l', rtn) := LinkConfigSet(l, config, admin); var locked := !admin && l.ctrl.config.lock;
            && (l.ctrl.state != CtrlDown ==> rtn == EBADRQC)
            && (l.ctrl.state == CtrlDown && locked ==> rtn == Ok)
            && (l.ctrl.state == CtrlDown && !locked ==>
                 ((config.settleMs == 0) != (config.checkMs == 0) <==> rtn == EINVAL))
            && (rtn != Ok || locked ==> l' == l)
  {
  }

  /** What the control layer accepts core accepts: a down always, an async-down unless an attempt is
      being started, a configuration whenever the control layer is down. */
  lemma AcceptedByBoth(w: World, run: Run, force: bool, config: Config, admin: bool)
    requires Initial(w) && Follows(w, run)
    ensures var l := After(w, run).link; var s := l.ctrl.state;
            && (LinkDown(l).1 == Ok <==> s == CtrlStarting || s == CtrlUp || s == CtrlUpDownReq)
            && (LinkDown(l).1 == Ok ==>
                 LinkDown(l).0.ctrl.state == CtrlStopping && LinkDown(l).0.core.state != CoreUp)
            && LinkDown(l).1 != EBADRQC
            && (AsyncDown(l, force).1 == Ok <==> s != CtrlStarting)
            && (AsyncDown(l, true).1 == Ok ==>
                 var s' := AsyncDown(l, true).0.ctrl.state;
                 s' != CtrlUp && (s == CtrlUp ==> s' == CtrlStopping))
            && (s == CtrlDown && (admin || !l.ctrl.config.lock) && (config.settleMs == 0 <==> config.checkMs == 0) ==>
                 && LinkConfigSet(l, config, admin).1 == Ok
                 && LinkConfigSet(l, config, admin).0.ctrl.config == config
                 && LinkConfigSet(l, config, admin).0.core.state == Configured
                 && LinkConfigSet(l, config, admin).0.core.autoneg == config.autoneg)
  {
    Reachable(w, run);
  }

  /** A report that the attempt fails is taken exactly while a session is starting or stopping. It leaves a
      pending attempt pending, so that it is still answered, and a second report changes nothing. */
  lemma UpFailOnce(w: World, run: Run)
    requires Initial(w) && Follows(w, run)
    ensures var l := After(w, run).link; var (c, rtn) := CoreLinkUpFail(l.core);
            && (rtn == Ok <==> l.ctrl.state == CtrlStarting || l.ctrl.state == CtrlStopping)
            && (AttemptPending(c) <==> AttemptPending(l.core)) && CoreLinkUpFail(c) == (c, rtn)
  {
    Reachable(w, run);
  }

  /** The core steps that finish what core is doing. */
  function Completion(c: Core): seq<Step> {
    match c.state
    case CoreAn => [TimesOut, TimeoutEnds]
    case GoingUp => [TimesOut, TimeoutEnds]
    case Timeout => [TimeoutEnds]
    case Canceling => if c.cancelTail then [CancelEnds({}), CancelReports] else [CancelReports]
    case GoingDown =>
      if UpFailWork in c.queued then [UpFailEnds]
      else if DownWork in c.queued then [DownEnds({})]
      else [FaultEnds]
    case _ => []
  }

  function At(steps: seq<Step>, e: Env): (run: Run)
    ensures |run| == |steps|
  {
    if steps == [] then [] else [(steps[0], e)] + At(steps[1..], e)
  }

  lemma SilentFirst(u: World, e: Env)
    requires Inv(u) && u.now <= e.t0 == e.t1 == e.t2 && |Completion(u.link.core)| == 2
    requires u.link.ctrl.state == CtrlStopping || u.link.ctrl.state == CtrlStarting
    ensures var steps := Completion(u.link.core); var u1 := Next(u, (steps[0], e));
            && Enabled(u, steps[0], e) && Inv(u1) && u1.now == e.t0
            && u1.link.ctrl == u.link.ctrl && AttemptPending(u.link.core) && Completion(u1.link.core) == [steps[1]]
  {
    StepKeeps(u, Completion(u.link.core)[0], e);
  }

  lemma LastCompletion(u: World, st: Step, e: Env)
    requires Inv(u) && u.now <= e.t0 == e.t1 == e.t2 && Completion(u.link.core) == [st]
    requires u.link.ctrl.state == CtrlStopping || u.link.ctrl.state == CtrlStarting
    ensures Enabled(u, st, e)
    ensures var u' := Next(u, (st, e));
            && (u.link.ctrl.state == CtrlStopping ==> u'.link.ctrl.state == CtrlDown)
            && (AttemptPending(u.link.core) ==>
                 u'.link.ctrl.counters.upFail == u.link.ctrl.counters.upFail + 1)
  {
  }

  lemma FinishesFrom(u: World, e: Env)
    requires Inv(u) && u.now <= e.t0 == e.t1 == e.t2
    requires u.link.ctrl.state == CtrlStopping || u.link.ctrl.state == CtrlStarting
    ensures var end := At(Completion(u.link.core), e);
            && Follows(u, end)
            && (u.link.ctrl.state == CtrlStopping ==> After(u, end).link.ctrl.state == CtrlDown)
            && (AttemptPending(u.link.core) ==>
                 After(u, end).link.ctrl.counters.upFail == u.link.ctrl.counters.upFail + 1)
  {
    var steps := Completion(u.link.core);
    var end := At(steps, e);
    if |steps| == 2 {
      var u1 := Next(u, (steps[0], e));
      SilentFirst(u, e);
      assert end[0] == (steps[0], e) && end[1..] == [(steps[1], e)];
      LastCompletion(u1, steps[1], e);
      assert After(u1, end[1..]) == Next(u1, end[1]);
    } else {
      LastCompletion(u, steps[0], e);
      assert end == [(steps[0], e)] && end[1..] == [];
    }
  }

  /** No transient state of the control layer waits for a completion that is not coming: the core steps
      that finish are enabled, STOPPING ends DOWN, and a pending attempt is answered. */
  lemma NothingStuck(w: World, run: Run, e: Env)
    requires Initial(w) && Follows(w, run)
    requires After(w, run).link.ctrl.state == CtrlStopping || After(w, run).link.ctrl.state == CtrlStarting
    requires After(w, run).now <= e.t0 == e.t1 == e.t2
    ensures var u := After(w, run);
            var end := At(Completion(u.link.core), e);
            && Follows(u, end)
            && (u.link.ctrl.state == CtrlStopping ==> After(u, end).link.ctrl.state == CtrlDown)
            && (AttemptPending(u.link.core) ==>
                 After(u, end).link.ctrl.counters.upFail == u.link.ctrl.counters.upFail + 1)
  {
    Reachable(w, run);
    FinishesFrom(After(w, run), e);
  }

  // ------------------------------------------------------------------ what a session tells its clients

  function Endings(log: seq<Event>): nat
    decreases |log|
  {
    if log == [] then 0
    else
      var last := log[|log| - 1];
      Endings(log[..|log| - 1]) + (if last.Notified? && Terminal(last.n) then 1 else 0)
  }

  function LinkUps(log: seq<Event>): nat
    decreases |log|
  {
    if log == [] then 0
    else LinkUps(log[..|log| - 1]) + (if log[|log| - 1] == Notified(LinkUpNotif) then 1 else 0)
  }

  lemma OneMore(log: seq<Event>, v: Event)
    ensures Endings(log + [v]) == Endings(log) + (if v.Notified? && Terminal(v.n) then 1 else 0)
    ensures LinkUps(log + [v]) == LinkUps(log) + (if v == Notified(LinkUpNotif) then 1 else 0)
  {
    assert (log + [v])[..|log|] == log;
  }

  lemma EndingMore(log: seq<Event>, n: Notif)
    requires Terminal(n)
    ensures Endings(log + Ending(n)) == Endings(log) + 1
    ensures LinkUps(log + Ending(n)) == LinkUps(log)
  {
    OneMore(log, Flushed);
    OneMore(log + [Flushed], StateDown);
    OneMore(log + [Flushed] + [StateDown], Completed);
    OneMore(log + [Flushed] + [StateDown] + [Completed], Notified(n));
    assert log + Ending(n) == log + [Flushed] + [StateDown] + [Completed] + [Notified(n)];
  }

  lemma ToldTally(l: Link, l': Link)
    requires Told(l, l')
    ensures Endings(l'.log) - Endings(l.log) == l'.acct.terminals - l.acct.terminals
    ensures LinkUps(l'.log) - LinkUps(l.log) == l'.acct.ups - l.acct.ups
  {
    if |l'.log| == |l.log| + 1 {
      OneMore(l.log, l'.log[|l.log|]);
      assert l'.log == l.log + [l'.log[|l.log|]];
    } else if |l'.log| == |l.log| + 4 {
      var n := l'.log[|l.log| + 3].n;
      assert l'.log == l.log + Ending(n);
      EndingMore(l.log, n);
    } else {
      assert l'.log == l.log;
    }
  }

  function Bit(b: bool): nat { if b then 1 else 0 }

  /** The steps of one session: the run starts no other. */
  predicate OneSession(w: World, run: Run)
    decreases |run|
  {
    run == [] || (!StartsSession(w.link, run[0].0) && OneSession(Next(w, run[0]), run[1..]))
  }

  function Strike(w: World, st: Step): nat { Bit(st.CancelEnds? && w.link.core.state == CoreDown) }

  function Refund(w: World, st: Step): nat { Bit(st.Async? && w.link.ctrl.state == CtrlStarting) }

  /** How often the second callback of a cancel found the core still DOWN. */
  function Strikes(w: World, run: Run): nat
    decreases |run|
  {
    if run == [] then 0
    else Strike(w, run[0].0) + Strikes(Next(w, run[0]), run[1..])
  }

  /** How often an async-down was raised while the link was STARTING. */
  function Refunds(w: World, run: Run): nat
    decreases |run|
  {
    if run == [] then 0
    else Refund(w, run[0].0) + Refunds(Next(w, run[0]), run[1..])
  }

  predicate Accounts(l: Link, l': Link, tail: bool, refund: bool) {
    var a := l.acct; var a' := l'.acct;
    && a'.active == a.active && a'.limit == a.limit
    && Bit(a'.tailDone) - Bit(a.tailDone) == Bit(tail)
    && a'.refunds - a.refunds == Bit(refund)
    && a'.calls - a.calls == l'.ctrl.counters.upRetry - l.ctrl.counters.upRetry
  }

  lemma FailureAccount(l: Link, core: Core, e: Env)
    ensures Accounts(l, UpCallback(l.(core := core), CoreDown, e).0, false, false)
  {
  }

  lemma OtherAccount(l: Link, st: Step, e: Env)
    requires !StartsSession(l, st)
    requires !st.CancelEnds? && !st.UpFailEnds? && !st.TimeoutEnds? && !st.CancelReports?
    ensures Accounts(l, Effect(l, st, e), false, st.Async? && l.ctrl.state == CtrlStarting)
  {
  }

  lemma StepAccount(w: World, st: Step, e: Env)
    requires Inv(w) && Enabled(w, st, e) && !StartsSession(w.link, st)
    ensures Accounts(w.link, Effect(w.link, st, e), st.CancelEnds? && w.link.core.state == CoreDown,
                     st.Async? && w.link.ctrl.state == CtrlStarting)
  {
    var c := w.link.core;
    match st
    case CancelEnds(cause) =>
      if c.state == CoreDown { PromptTail(w.link, cause); } else { LateTail(w.link, cause); }
    case UpFailEnds => FailureAccount(w.link, c.(state := CoreDown, queued := c.queued - {UpFailWork}), e);
    case TimeoutEnds => FailureAccount(w.link, c.(state := CoreDown, queued := c.queued - {UpFailWork}), e);
    case CancelReports =>
      FailureAccount(w.link, c.(state := CoreDown, queued := c.queued - {UpCancelWork}, cancelTail := true), e);
    case _ => OtherAccount(w.link, st, e);
  }

  lemma {:induction false} SessionAccount(w: World, run: Run)
    requires Inv(w) && Follows(w, run) && OneSession(w, run)
    ensures var l := w.link; var l' := After(w, run).link;
            && Endings(l'.log) - Endings(l.log) == l'.acct.terminals - l.acct.terminals
            && LinkUps(l'.log) - LinkUps(l.log) == l'.acct.ups - l.acct.ups
            && Strikes(w, run) == Bit(l'.acct.tailDone) - Bit(l.acct.tailDone)
            && Refunds(w, run) == l'.acct.refunds - l.acct.refunds
            && l'.acct.calls - l.acct.calls == l'.ctrl.counters.upRetry - l.ctrl.counters.upRetry
            && l'.acct.active == l.acct.active && l'.acct.limit == l.acct.limit
    decreases |run|
  {
    if run != [] {
      var st, e := run[0].0, run[0].1;
      StepTold(w.link, st, e);
      ToldTally(w.link, Effect(w.link, st, e));
      StepAccount(w, st, e);
      StepKeeps(w, st, e);
      SessionAccount(Next(w, run[0]), run[1..]);
    }
  }

  lemma CoupledStates(l: Link)
    requires Coupled(l)
    ensures l.ctrl.state == CtrlDown || l.ctrl.state == CtrlStarting || l.ctrl.state == CtrlUp
            || l.ctrl.state == CtrlUpDownReq || l.ctrl.state == CtrlStopping
  {
  }

  /** A session that core accepted, followed through any run: it announces LINK_UP at most once and no
      ending before it is over; over, it has announced one ending, and a second one exactly when the
      second callback of a cancel found the core still DOWN. */
  lemma SessionEndings(w0: World, before: Run, e: Env, run: Run)
    requires Initial(w0) && Follows(w0, before)
    requires Enabled(After(w0, before), Up, e) && LinkUp(After(w0, before).link, e).1 == Ok
    requires Follows(Next(After(w0, before), (Up, e)), run) && OneSession(Next(After(w0, before), (Up, e)), run)
    ensures var w := Next(After(w0, before), (Up, e)); var u := After(w, run);
            var endings := Endings(u.link.log) - Endings(w.link.log);
            && 0 <= LinkUps(u.link.log) - LinkUps(w.link.log) <= 1
            && (u.link.ctrl.state != CtrlDown ==> endings == 0)
            && (u.link.ctrl.state == CtrlDown ==> endings == 1 + Strikes(w, run))
            && Strikes(w, run) <= 1
  {
    Reachable(w0, before);
    var w := Next(After(w0, before), (Up, e));
    StepKeeps(After(w0, before), Up, e);
    SessionAccount(w, run);
    RunKeeps(w, run);
    CoupledStates(After(w, run).link);
  }

  lemma SessionStep(w: World, st: Step, e: Env)
    requires Inv(w) && Enabled(w, st, e) && !StartsSession(w.link, st)
    ensures var l' := Effect(w.link, st, e);
      && (w.link.ctrl.state == CtrlDown ==> l'.ctrl.state == CtrlDown)
      && (w.link.ctrl.state != CtrlDown ==> l'.ctrl.config == w.link.ctrl.config)
      && (w.link.ctrl.state == CtrlDown ==> l'.log != w.link.log + [Notified(LinkUpNotif)])
  {
  }

  /** From entry `from` on, LINK_UP comes before any wait for the notification work. */
  predicate LinkUpFirst(log: seq<Event>, from: nat) {
    forall a, b ::
      from <= a < |log| && from <= b < |log| && log[a] == Notified(LinkUpNotif) && log[b] == Flushed ==> a < b
  }

  predicate NoLinkUp(log: seq<Event>, from: nat) {
    forall a :: from <= a < |log| ==> log[a] != Notified(LinkUpNotif)
  }

  /** From entry `from` on, every ending comes after its own wait for the notification work. */
  predicate EndingsWait(log: seq<Event>, from: nat) {
    forall b :: from <= b < |log| && log[b].Notified? && Terminal(log[b].n) ==> from + 3 <= b && log[b - 3] == Flushed
  }

  predicate WholeEnding(block: seq<Event>) {
    |block| == 4 && block[3].Notified? && Terminal(block[3].n) && block == Ending(block[3].n)
  }

  /** What a step puts into the log: nothing, one notification that is no ending, or a whole ending. */
  predicate Block(block: seq<Event>) {
    block == [] || block == [Notified(DownReqNotif)] || block == [Notified(LinkUpNotif)] || WholeEnding(block)
  }

  lemma BlockEntry(block: seq<Event>, k: nat)
    requires Block(block) && k < |block|
    ensures block[k] == Notified(LinkUpNotif) ==> k == 0 && |block| == 1
    ensures block[k] == Flushed ==> WholeEnding(block) && k == 0
    ensures block[k].Notified? && Terminal(block[k].n) ==> WholeEnding(block) && k == 3 && block[0] == Flushed
  {
  }

  /** A block in front of the entries from `next` on; no LINK_UP comes behind a whole ending. */
  lemma PutBefore(log: seq<Event>, from: nat, next: nat)
    requires from <= next <= |log| && LinkUpFirst(log, next) && EndingsWait(log, next) && Block(log[from..next])
    requires WholeEnding(log[from..next]) ==> NoLinkUp(log, next)
    ensures LinkUpFirst(log, from) && EndingsWait(log, from)
    ensures NoLinkUp(log, next) && log[from..next] != [Notified(LinkUpNotif)] ==> NoLinkUp(log, from)
  {
    var block := log[from..next];
    forall k | from <= k < next
      ensures log[k] == Notified(LinkUpNotif) ==> k == from && |block| == 1 && block[0] == log[k]
      ensures log[k] == Flushed ==> WholeEnding(block) && k == from
      ensures log[k].Notified? && Terminal(log[k].n) ==> k == from + 3 && log[from] == Flushed
    {
      assert log[k] == block[k - from] && log[from] == block[0];
      BlockEntry(block, k - from);
    }
    forall a, b | from <= a < |log| && from <= b < |log| && log[a] == Notified(LinkUpNotif) && log[b] == Flushed
      ensures a < b
    {
    }
  }

  lemma StepBlock(w: World, st: Step, e: Env)
    requires Inv(w) && Enabled(w, st, e) && !StartsSession(w.link, st)
    ensures var l, l' := w.link, Effect(w.link, st, e);
      && l.log <= l'.log
      && var block := l'.log[|l.log|..];
         || block == [] || block == [Notified(DownReqNotif)]
         || (block == [Notified(LinkUpNotif)] && l.ctrl.state != CtrlDown)
         || (WholeEnding(block) && l'.ctrl.state == CtrlDown)
  {
    SessionStep(w, st, e);
    StepTold(w.link, st, e);
    StepEnds(w.link, st, e);
  }

  lemma BlockOf(a: seq<Event>, b: seq<Event>, log: seq<Event>)
    requires a <= b <= log
    ensures log[|a|..|b|] == b[|a|..]
  {
  }

  lemma {:induction false} LogOrder(w: World, run: Run)
    requires Inv(w) && Follows(w, run) && OneSession(w, run)
    ensures var from, log := |w.link.log|, After(w, run).link.log;
      && w.link.log <= log && LinkUpFirst(log, from) && EndingsWait(log, from)
      && (w.link.ctrl.state == CtrlDown ==> NoLinkUp(log, from))
    decreases |run|
  {
    if run != [] {
      var st, e := run[0].0, run[0].1;
      var l' := Effect(w.link, st, e);
      SessionStep(w, st, e);
      StepBlock(w, st, e);
      StepKeeps(w, st, e);
      LogOrder(Next(w, run[0]), run[1..]);
      var from, next, log := |w.link.log|, |l'.log|, After(w, run).link.log;
      BlockOf(w.link.log, l'.log, log);
      PutBefore(log, from, next);
    }
  }

  /** In a session LINK_UP is enqueued before its ending starts to wait for the notification work, and no
      ending is announced without that wait. */
  lemma LinkUpBeforeFlush(w0: World, before: Run, e: Env, run: Run)
    requires Initial(w0) && Follows(w0, before)
    requires Enabled(After(w0, before), Up, e) && LinkUp(After(w0, before).link, e).1 == Ok
    requires Follows(Next(After(w0, before), (Up, e)), run) && OneSession(Next(After(w0, before), (Up, e)), run)
    ensures var w := Next(After(w0, before), (Up, e)); var log := After(w, run).link.log;
            LinkUpFirst(log, |w.link.log|) && EndingsWait(log, |w.link.log|)
  {
    Reachable(w0, before);
    StepKeeps(After(w0, before), Up, e);
    LogOrder(Next(After(w0, before), (Up, e)), run);
  }

  lemma StartedAt(w: World, config: Config, e: Env)
    requires Initial(w) && w.now == e.t0 == e.t1 == e.t2 && e.serdesReady
    requires (config.settleMs == 0) == (config.checkMs == 0)
    ensures var before := [(SetConfig(config, true), e), (Up, e)]; var u := After(w, before);
            && Follows(w, before) && u.now == e.t0 && u.link.ctrl.state == CtrlStarting && !u.link.ctrl.isCanceled
            && u.link.log == [] && u.link.ctrl.config == config && u.link.ctrl.counters.upRetry == 0
            && !u.link.core.cancelTail
            && u.link.core.state == (if config.autoneg then CoreAn else GoingUp) && u.link.core.queued == {}
  {
    var a := Next(w, (SetConfig(config, true), e));
    var b := Next(a, (Up, e));
    var before := [(SetConfig(config, true), e), (Up, e)];
    assert before[1..] == [(Up, e)] && before[1..][1..] == [];
    assert After(a, before[1..]) == b && After(w, before) == b;
  }

  lemma Chain(w: World, m: (Step, Env), rest: Run)
    requires Enabled(w, m.0, m.1) && Follows(Next(w, m), rest)
    ensures Follows(w, [m] + rest) && After(w, [m] + rest) == After(Next(w, m), rest)
    ensures Strikes(w, [m] + rest) == Strike(w, m.0) + Strikes(Next(w, m), rest)
    ensures Refunds(w, [m] + rest) == Refund(w, m.0) + Refunds(Next(w, m), rest)
  {
    assert ([m] + rest)[0] == m && ([m] + rest)[1..] == rest;
  }

  lemma SecondEnding(d: World, e: Env)
    requires d.now == e.t0 == e.t1 == e.t2 && d.link.core.state == CoreDown && d.link.core.cancelTail
    requires d.link.core.downCallback == OnDown
    ensures var run := [(CancelEnds({}), e)];
            && Follows(d, run) && After(d, run).link.log == d.link.log + Ending(DownNotif) && Strikes(d, run) == 1
  {
    Chain(d, (CancelEnds({}), e), []);
    assert [(CancelEnds({}), e)] + [] == [(CancelEnds({}), e)];
  }

  lemma CancelAnswered(c: World, e: Env)
    requires c.now == e.t0 == e.t1 == e.t2 && c.link.ctrl.isCanceled && c.link.log == []
    requires c.link.core.state == Canceling && c.link.core.queued == {UpCancelWork} && !c.link.core.cancelTail
    requires c.link.core.downCallback == OnDown
    ensures var run := [(CancelReports, e), (CancelEnds({}), e)];
            && Follows(c, run) && After(c, run).link.log == Ending(UpFailNotif) + Ending(DownNotif)
            && Strikes(c, run) == 1
  {
    var d := Next(c, (CancelReports, e));
    assert d.now == e.t0;
    SecondEnding(d, e);
    Chain(c, (CancelReports, e), [(CancelEnds({}), e)]);
    assert [(CancelReports, e)] + [(CancelEnds({}), e)] == [(CancelReports, e), (CancelEnds({}), e)];
  }

  lemma CancelRun(b: World, e: Env)
    requires b.now == e.t0 == e.t1 == e.t2 && b.link.ctrl.state == CtrlStarting && b.link.log == []
    requires b.link.core.state == CoreAn || b.link.core.state == GoingUp
    requires b.link.core.queued == {} && !b.link.core.cancelTail
    ensures var run := [(Down, e), (CancelReports, e), (CancelEnds({}), e)];
            && Follows(b, run) && After(b, run).link.log == Ending(UpFailNotif) + Ending(DownNotif)
            && Strikes(b, run) == 1
  {
    var c := Next(b, (Down, e));
    assert c.now == e.t0;
    CancelAnswered(c, e);
    var rest := [(CancelReports, e), (CancelEnds({}), e)];
    Chain(b, (Down, e), rest);
    assert [(Down, e)] + rest == [(Down, e), (CancelReports, e), (CancelEnds({}), e)];
  }

  /** A canceled attempt announces UP_FAIL and then DOWN: two endings of one session. */
  lemma CanceledTwice(w: World, config: Config, e: Env)
    requires Initial(w) && w.now == e.t0 == e.t1 == e.t2 && e.serdesReady
    requires (config.settleMs == 0) == (config.checkMs == 0)
    ensures var before := [(SetConfig(config, true), e), (Up, e)];
            var run := [(Down, e), (CancelReports, e), (CancelEnds({}), e)];
            && Follows(w, before) && Follows(After(w, before), run)
            && After(After(w, before), run).link.log == Ending(UpFailNotif) + Ending(DownNotif)
            && Strikes(After(w, before), run) == 1
  {
    StartedAt(w, config, e);
    CancelRun(After(w, [(SetConfig(config, true), e), (Up, e)]), e);
  }

  /** In every run a step that announces an ending leaves the link DOWN with its waiters released, and a
      link that is not DOWN goes DOWN by such a step only. */
  lemma EndingLeavesDown(w: World, run: Run, st: Step, e: Env)
    requires Initial(w) && Follows(w, run) && Enabled(After(w, run), st, e)
    ensures var l := After(w, run).link; var l' := Effect(l, st, e);
            && (EndingOf(l, l').Some? ==> l'.ctrl.state == CtrlDown && l'.ctrl.downComplete)
            && (l.ctrl.state != CtrlDown ==> (l'.ctrl.state == CtrlDown <==> EndingOf(l, l').Some?))
            && (EndingOf(l, l').Some? ==>
                 Terminal(EndingOf(l, l').value) && l'.log == l.log + Ending(EndingOf(l, l').value))
  {
    StepEnds(After(w, run).link, st, e);
    if !StartsSession(After(w, run).link, st) {
      StepTold(After(w, run).link, st, e);
    }
  }

  // ------------------------------------------------------------------ retries

  /** The causes that end a session at once, and what is kept when the tries are used up, by bit number; a
      configuration of 2^32 - 1 tries never runs out of them. */
  lemma CausesAre(count: U32)
    ensures FATAL_MASK == {1, 6, 8, 9, 12, 14, 16, 23, 25, 26, 31} && UP_TRIES_MAP == {5, 61, 63} && CANCELED == 11
    ensures !OutOfTries(count, 0xFFFF_FFFF)
    ensures forall max: U32 :: max != 0xFFFF_FFFF ==> (OutOfTries(count, max) <==> count >= max)
  {
  }

  /** A callback with a core state it does not expect: the up callback and the fault callback end the session
      with an error, the down callbacks leave everything as it is. */
  lemma CallbackUnexpected(l: Link, state: CoreState, cause: CauseMap, n: Notif, e: Env)
    requires state != CoreDown
    ensures state != CoreUp ==>
      var (l', rtn) := UpCallback(l, state, e);
      && rtn == EBADRQC && l'.log == l.log + Ending(ErrorNotif) && l'.ctrl.state == CtrlDown
      && l'.ctrl.clock == CLOCK_ZERO && l'.ctrl.downComplete && l'.core == l.core && l'.ctrl.counters == l.ctrl.counters
    ensures DownCallbackFor(l, state, cause, n) == (l, EBADRQC)
    ensures var l' := FaultCallback(l, state);
      && l'.log == l.log + Ending(ErrorNotif) && l'.ctrl.state == CtrlDown && l'.ctrl.clock == CLOCK_ZERO
      && l'.ctrl.downComplete && l'.core == l.core
      && l'.ctrl.counters == l.ctrl.counters.(faultAsync := l.ctrl.counters.faultAsync + 1)
  {
  }

  /** A session whose attempt has failed with this cause goes on: it is not canceled, tries remain, and the
      cause holds no fatal one. */
  predicate Again(l: Link, cause: CauseMap) {
    && l.ctrl.state == CtrlStarting
    && (l.ctrl.clock.attemptCount < l.ctrl.config.triesMax || l.ctrl.config.triesMax == INFINITE_UP_TRIES)
    && cause !! FATAL_MASK
  }

  /** A failed attempt is tried again exactly when the session goes on; a retry core accepts uses up one
      try and has core on its way up as configured, and a session that is not retried is DOWN. */
  predicate RetriedRight(l: Link, l': Link, e: Env) {
    var max := l.ctrl.config.triesMax;
    && l'.ctrl.config == l.ctrl.config
    && (l'.ctrl.counters.upRetry == l.ctrl.counters.upRetry + 1 <==> Again(l, e.cause))
    && (l'.ctrl.state == CtrlStarting <==>
         l'.ctrl.counters.upRetry == l.ctrl.counters.upRetry + 1 && e.serdesReady)
    && (l'.ctrl.state == CtrlStarting ==>
         && l'.core.state == Attempting(l.ctrl.config)
         && l'.ctrl.clock.attemptStart == e.t1 && l'.ctrl.clock.start == l.ctrl.clock.start
         && (max != INFINITE_UP_TRIES ==>
              max - l'.ctrl.clock.attemptCount == max - l.ctrl.clock.attemptCount - 1 >= 0))
    && (l'.ctrl.state != CtrlStarting ==> l'.ctrl.state == CtrlDown)
  }

  /** What the clients of a failed attempt are told: UP_FAIL when the session does not go on, an error when
      core refuses the retry, and nothing when it is tried again. */
  function FailureEnding(l: Link, e: Env): Option<Notif> {
    if !Again(l, e.cause) then Some(UpFailNotif)
    else if !e.serdesReady then Some(ErrorNotif)
    else None
  }

  function LogOf(n: Option<Notif>): seq<Event> { if n.Some? then Ending(n.value) else [] }

  /** The causes kept are those of this attempt, with the tries among them exactly when they, and not a
      cancel, end the session. */
  function FailureCause(l: Link, e: Env): CauseMap {
    var max := l.ctrl.config.triesMax;
    if l.ctrl.state == CtrlStarting && l.ctrl.clock.attemptCount >= max && max != INFINITE_UP_TRIES
    then e.cause + UP_TRIES_MAP
    else e.cause
  }

  predicate ToldRight(l: Link, l': Link, e: Env) {
    && EndingOf(l, l') == FailureEnding(l, e) && l'.log == l.log + LogOf(FailureEnding(l, e))
    && l'.ctrl.upFailCause == FailureCause(l, e)
    && (l'.ctrl.state == CtrlDown ==> l'.ctrl.clock == CLOCK_ZERO && l'.ctrl.downComplete)
    && l'.ctrl.counters.upFail == l.ctrl.counters.upFail + 1
  }

  lemma FailureOutcome(l: Link, core: Core, e: Env)
    requires Coupled(l) && Agreed(l) && CancelMarked(l) && AttemptPending(l.core)
    requires core.state == CoreDown && core.autoneg == l.core.autoneg
    ensures var l' := UpCallback(l.(core := core), CoreDown, e).0; var again := Again(l, e.cause);
            && l'.ctrl.config == l.ctrl.config
            && l'.ctrl.counters.upRetry == l.ctrl.counters.upRetry + Bit(again)
            && (l'.ctrl.state == CtrlStarting <==> again && e.serdesReady)
            && (l'.ctrl.state == CtrlStarting ==>
                 && l'.core.state == Attempting(l.ctrl.config)
                 && l'.ctrl.clock.attemptStart == e.t1 && l'.ctrl.clock.start == l.ctrl.clock.start
                 && l'.ctrl.clock.attemptCount == (l.ctrl.clock.attemptCount + 1) % 0x1_0000_0000)
            && (l'.ctrl.state != CtrlStarting ==> l'.ctrl.state == CtrlDown)
  {
  }

  lemma FailureToldRight(l: Link, core: Core, e: Env)
    requires Coupled(l) && CancelMarked(l) && AttemptPending(l.core) && core.state == CoreDown
    ensures var (l', rtn) := UpCallback(l.(core := core), CoreDown, e);
      ToldRight(l, l', e) && rtn == (if FailureEnding(l, e) == Some(ErrorNotif) then EIO else Ok)
  {
  }

  lemma AttemptOutcome(l: Link, st: Step, e: Env)
    requires Coupled(l) && Agreed(l) && CancelMarked(l) && AttemptPending(l.core)
    requires st.UpFailEnds? || st.TimeoutEnds? || st.CancelReports?
    ensures RetriedRight(l, Effect(l, st, e), e) && ToldRight(l, Effect(l, st, e), e)
  {
    var core := if st.CancelReports?
                then l.core.(state := CoreDown, queued := l.core.queued - {UpCancelWork}, cancelTail := true)
                else l.core.(state := CoreDown, queued := l.core.queued - {UpFailWork});
    FailureOutcome(l, core, e);
    FailureToldRight(l, core, e);
  }

  lemma RetryExactly(w: World, run: Run, st: Step, e: Env)
    requires Initial(w) && Follows(w, run) && Enabled(After(w, run), st, e)
    requires st.UpFailEnds? || st.TimeoutEnds? || st.CancelReports?
    ensures RetriedRight(After(w, run).link, Effect(After(w, run).link, st, e), e)
  {
    Reachable(w, run);
    AttemptOutcome(After(w, run).link, st, e);
  }

  /** What the clients are told of a failed attempt, and the causes kept, in every run. */
  lemma FailureToldExactly(w: World, run: Run, st: Step, e: Env)
    requires Initial(w) && Follows(w, run) && Enabled(After(w, run), st, e)
    requires st.UpFailEnds? || st.TimeoutEnds? || st.CancelReports?
    ensures ToldRight(After(w, run).link, Effect(After(w, run).link, st, e), e)
    ensures st.CancelReports? ==> FailureEnding(After(w, run).link, e) == Some(UpFailNotif)
  {
    Reachable(w, run);
    AttemptOutcome(After(w, run).link, st, e);
  }

  /** Until the session is over the configuration is the one it started with; over, it stays over until the
      next link-up. */
  lemma {:induction false} SessionConfig(w: World, run: Run)
    requires Inv(w) && Follows(w, run) && OneSession(w, run)
    ensures var l, l' := w.link, After(w, run).link;
      && (l.ctrl.state == CtrlDown ==> l'.ctrl.state == CtrlDown)
      && (l'.ctrl.state != CtrlDown ==> l'.ctrl.config == l.ctrl.config)
    decreases |run|
  {
    if run != [] {
      SessionStep(w, run[0].0, run[0].1);
      StepKeeps(w, run[0].0, run[0].1);
      SessionConfig(Next(w, run[0]), run[1..]);
    }
  }

  lemma {:induction false} GrantedProduct(limit: nat, times: nat)
    ensures Granted(limit, times) == limit * times
  {
    if times > 0 { GrantedProduct(limit, times - 1); }
  }

  lemma CallsGranted(w: World, run: Run)
    requires Inv(w) && Follows(w, run) && OneSession(w, run)
    requires w.link.acct.calls == 1 && w.link.acct.refunds == 0 && w.link.acct.limit != INFINITE_UP_TRIES
    ensures 1 + After(w, run).link.ctrl.counters.upRetry - w.link.ctrl.counters.upRetry
            <= w.link.acct.limit * (Refunds(w, run) + 1)
  {
    SessionAccount(w, run);
    RunKeeps(w, run);
    GrantedProduct(w.link.acct.limit, Refunds(w, run) + 1);
  }

  lemma FirstCall(w: World, e: Env)
    requires Inv(w) && Enabled(w, Up, e) && LinkUp(w.link, e).1 == Ok
    ensures var a := Next(w, (Up, e)).link.acct; var config := Next(w, (Up, e)).link.ctrl.config;
            && Inv(Next(w, (Up, e))) && config == w.link.ctrl.config
            && a.calls == 1 && a.refunds == 0 && a.limit == Max1(config.triesMax)
  {
    StepKeeps(w, Up, e);
  }

  /** The core link-up calls of a session, its first one and its retries, are at most max(1, tries)
      for every time the tries were given back, so at most max(1, tries) when they never were; the tries are
      those of the configuration the link-up found, in force until the session is over. */
  lemma CallsBounded(w0: World, before: Run, e: Env, run: Run)
    requires Initial(w0) && Follows(w0, before)
    requires Enabled(After(w0, before), Up, e) && LinkUp(After(w0, before).link, e).1 == Ok
    requires Follows(Next(After(w0, before), (Up, e)), run) && OneSession(Next(After(w0, before), (Up, e)), run)
    requires After(w0, before).link.ctrl.config.triesMax != INFINITE_UP_TRIES
    ensures var w := Next(After(w0, before), (Up, e)); var u := After(w, run);
            var calls := 1 + u.link.ctrl.counters.upRetry - w.link.ctrl.counters.upRetry;
            && calls <= Max1(w.link.ctrl.config.triesMax) * (Refunds(w, run) + 1)
            && (u.link.ctrl.state != CtrlDown ==> u.link.ctrl.config == After(w0, before).link.ctrl.config)
  {
    Reachable(w0, before);
    FirstCall(After(w0, before), e);
    SessionConfig(Next(After(w0, before), (Up, e)), run);
    CallsGranted(Next(After(w0, before), (Up, e)), run);
  }

  lemma GivenBack(d: World, e: Env)
    requires d.now == e.t0 == e.t1 == e.t2 > 0 && e.serdesReady && e.cause == {}
    requires d.link.ctrl.clock == CLOCK_ZERO && !d.link.ctrl.isCanceled && d.link.ctrl.config.triesMax == 1
    requires d.link.core.state == Timeout
    ensures var run := [(TimeoutEnds, e)]; var u := After(d, run);
            && Follows(d, run) && Refunds(d, run) == 0
            && u.link.ctrl.counters.upRetry == d.link.ctrl.counters.upRetry + 1 && Orphan(u.link.ctrl.clock)
  {
    Chain(d, (TimeoutEnds, e), []);
    assert [(TimeoutEnds, e)] + [] == [(TimeoutEnds, e)];
  }

  lemma RefundRun(b: World, e: Env)
    requires b.now == e.t0 == e.t1 == e.t2 > 0 && e.serdesReady && e.cause == {}
    requires b.link.ctrl.state == CtrlStarting && !b.link.ctrl.isCanceled && b.link.ctrl.config.triesMax == 1
    requires b.link.core.state == CoreAn || b.link.core.state == GoingUp
    ensures var run := [(Async(true), e), (TimesOut, e), (TimeoutEnds, e)]; var u := After(b, run);
            && Follows(b, run) && Refunds(b, run) == 1
            && u.link.ctrl.counters.upRetry == b.link.ctrl.counters.upRetry + 1 && Orphan(u.link.ctrl.clock)
  {
    var c := Next(b, (Async(true), e));
    var d := Next(c, (TimesOut, e));
    assert d.now == e.t0 && d.link.core.state == Timeout;
    GivenBack(d, e);
    Chain(c, (TimesOut, e), [(TimeoutEnds, e)]);
    Chain(b, (Async(true), e), [(TimesOut, e)] + [(TimeoutEnds, e)]);
    assert [(Async(true), e)] + ([(TimesOut, e)] + [(TimeoutEnds, e)])
        == [(Async(true), e), (TimesOut, e), (TimeoutEnds, e)];
  }

  /** One async-down while STARTING: a session configured for one try makes two. */
  lemma RefundedTry(w: World, config: Config, e: Env)
    requires Initial(w) && w.now == e.t0 == e.t1 == e.t2 && e.serdesReady && e.cause == {}
    requires (config.settleMs == 0) == (config.checkMs == 0) && config.triesMax == 1
    ensures var before := [(SetConfig(config, true), e), (Up, e)];
            var run := [(Async(true), e), (TimesOut, e), (TimeoutEnds, e)];
            && Follows(w, before) && Follows(After(w, before), run)
            && Refunds(After(w, before), run) == 1
            && After(After(w, before), run).link.ctrl.counters.upRetry == 1
            && Orphan(After(After(w, before), run).link.ctrl.clock)
  {
    StartedAt(w, config, e);
    Reachable(w, [(SetConfig(config, true), e), (Up, e)]);
    RefundRun(After(w, [(SetConfig(config, true), e), (Up, e)]), e);
  }

  /** A down that ends is counted, and one that ends a canceled attempt by its client's command twice. */
  function DownCounted(n: Counters, callback: DownCallback, cause: CauseMap): Counters {
    if callback.OnDown? && CANCELED in cause then n.(down := n.down + 1, upCanceled := n.upCanceled + 1)
    else n.(down := n.down + 1)
  }

  /** What the ends of the core work leave behind. */
  predicate AllAnswered(l: Link) {
    l.ctrl.counters.upCmd + l.ctrl.counters.upRetry == l.ctrl.counters.up + l.ctrl.counters.upFail + l.acct.refused
  }

  lemma FailureLeaves(w: World, run: Run, st: Step, e: Env)
    requires Initial(w) && Follows(w, run) && Enabled(After(w, run), st, e) && (st.UpFailEnds? || st.TimeoutEnds?)
    ensures var l := After(w, run).link; var l' := Effect(l, st, e);
      && RetriedRight(l, l', e) && ToldRight(l, l', e)
      && (l'.ctrl.state == CtrlDown ==> l'.ctrl.downComplete && AllAnswered(l'))
  {
    RetryExactly(w, run, st, e);
    FailureToldExactly(w, run, st, e);
    EndingLeavesDown(w, run, st, e);
    Reachable(w, run);
    StepKeeps(After(w, run), st, e);
  }

  lemma CancelLeaves(w: World, run: Run, e: Env)
    requires Initial(w) && Follows(w, run) && Enabled(After(w, run), CancelReports, e)
    ensures var l := After(w, run).link; var l' := Effect(l, CancelReports, e);
      && l'.ctrl.state == CtrlDown && l'.ctrl.downComplete && AllAnswered(l') && l'.log == l.log + Ending(UpFailNotif)
      && l'.core.state == CoreDown && l'.core.cancelTail && !l'.core.downCallback.NoCallback?
      && l'.ctrl.clock == CLOCK_ZERO && l'.ctrl.upFailCause == e.cause
      && l'.ctrl.counters.upFail == l.ctrl.counters.upFail + 1
  {
    Reachable(w, run);
    StepKeeps(After(w, run), CancelReports, e);
  }

  lemma DownLeaves(w: World, run: Run, cause: CauseMap, e: Env)
    requires Initial(w) && Follows(w, run) && Enabled(After(w, run), DownEnds(cause), e)
    ensures var l := After(w, run).link; var l' := Effect(l, DownEnds(cause), e);
      && l'.ctrl.state == CtrlDown && l'.ctrl.downComplete && AllAnswered(l')
      && l'.core.state == CoreDown && l'.core.queued == {}
      && l'.log == l.log + Ending(if l.core.downCallback == OnDown then DownNotif else AsyncDownNotif)
  {
    Reachable(w, run);
    StepKeeps(After(w, run), DownEnds(cause), e);
  }

  lemma FaultLeaves(w: World, run: Run, e: Env)
    requires Initial(w) && Follows(w, run) && Enabled(After(w, run), FaultEnds, e)
    ensures var l := After(w, run).link; var l' := Effect(l, FaultEnds, e);
      && l'.ctrl.state == CtrlDown && l'.ctrl.downComplete && l'.ctrl.clock == CLOCK_ZERO && AllAnswered(l')
      && l'.core.state == CoreDown && l'.core.queued == {} && l'.log == l.log + Ending(AsyncDownNotif)
  {
    Reachable(w, run);
    StepKeeps(After(w, run), FaultEnds, e);
  }

  // ------------------------------------------------------------------ the bound is reached

  lemma {:induction false} Joined(w: World, a: Run, b: Run)
    requires Follows(w, a) && Follows(After(w, a), b) && OneSession(w, a) && OneSession(After(w, a), b)
    ensures Follows(w, a + b) && After(w, a + b) == After(After(w, a), b) && OneSession(w, a + b)
    ensures Refunds(w, a + b) == Refunds(w, a) + Refunds(After(w, a), b)
    decreases |a|
  {
    if a == [] {
      assert a + b == b;
    } else {
      assert (a + b)[0] == a[0] && (a + b)[1..] == a[1..] + b;
      Joined(Next(w, a[0]), a[1..], b);
    }
  }

  /** An attempt is on its way, `count` of `tries` are used up, and what happens happens at one time. */
  predicate Trying(w: World, e: Env, tries: U32, count: nat) {
    && w.now == e.t0 == e.t1 == e.t2 && e.serdesReady && e.cause == {}
    && w.link.ctrl.state == CtrlStarting && !w.link.ctrl.isCanceled
    && w.link.ctrl.config.triesMax == tries && w.link.ctrl.clock.attemptCount == count
    && (w.link.core.state == CoreAn || w.link.core.state == GoingUp) && w.link.core.queued == {}
  }

  lemma TimedOut(w: World, e: Env, tries: U32, count: nat)
    requires Trying(w, e, tries, count)
    ensures var u := Next(w, (TimesOut, e));
      && Enabled(w, TimesOut, e) && u.now == e.t0
      && u.link.ctrl == w.link.ctrl && u.link.core == w.link.core.(state := Timeout)
  {
  }

  lemma TriedAgain(w: World, e: Env)
    requires w.now == e.t0 == e.t1 == e.t2 && e.serdesReady && e.cause == {}
    requires w.link.ctrl.state == CtrlStarting && !w.link.ctrl.isCanceled
    requires w.link.ctrl.clock.attemptCount < w.link.ctrl.config.triesMax < INFINITE_UP_TRIES
    requires w.link.core.state == Timeout && w.link.core.queued == {}
    ensures var u := Next(w, (TimeoutEnds, e));
      && Enabled(w, TimeoutEnds, e)
      && Trying(u, e, w.link.ctrl.config.triesMax, w.link.ctrl.clock.attemptCount + 1)
      && u.link.ctrl.counters.upRetry == w.link.ctrl.counters.upRetry + 1
  {
  }

  lemma OneStep(w: World, st: Step, e: Env)
    requires Enabled(w, st, e) && !StartsSession(w.link, st)
    ensures var run := [(st, e)];
      Follows(w, run) && After(w, run) == Next(w, (st, e)) && OneSession(w, run) && Refunds(w, run) == Refund(w, st)
  {
    assert [(st, e)][1..] == [];
  }

  lemma OneRetry(w: World, e: Env, tries: U32, count: nat) returns (run: Run)
    requires Trying(w, e, tries, count) && count < tries < INFINITE_UP_TRIES
    ensures Follows(w, run) && OneSession(w, run) && Refunds(w, run) == 0
    ensures var u := After(w, run);
      Trying(u, e, tries, count + 1) && u.link.ctrl.counters.upRetry == w.link.ctrl.counters.upRetry + 1
  {
    TimedOut(w, e, tries, count);
    var d := Next(w, (TimesOut, e));
    TriedAgain(d, e);
    OneStep(d, TimeoutEnds, e);
    OneStep(w, TimesOut, e);
    Joined(w, [(TimesOut, e)], [(TimeoutEnds, e)]);
    run := [(TimesOut, e)] + [(TimeoutEnds, e)];
  }

  lemma {:induction false} Retries(w: World, e: Env, tries: U32, count: nat) returns (run: Run)
    requires Trying(w, e, tries, count) && count <= tries < INFINITE_UP_TRIES
    ensures Follows(w, run) && OneSession(w, run) && Refunds(w, run) == 0
    ensures var u := After(w, run);
      Trying(u, e, tries, tries) && u.link.ctrl.counters.upRetry == w.link.ctrl.counters.upRetry + tries - count
    decreases tries - count
  {
    if count == tries {
      run := [];
    } else {
      run := OneRetry(w, e, tries, count);
      var rest := Retries(After(w, run), e, tries, count + 1);
      Joined(w, run, rest);
      run := run + rest;
    }
  }

  lemma GiveBack(w: World, e: Env, tries: U32, count: nat)
    requires Trying(w, e, tries, count)
    ensures var u := Next(w, (Async(true), e));
      && Enabled(w, Async(true), e) && Refund(w, Async(true)) == 1
      && Trying(u, e, tries, 0) && u.link.ctrl.counters.upRetry == w.link.ctrl.counters.upRetry
  {
  }

  lemma {:induction false} Rounds(w: World, e: Env, tries: U32, refunds: nat) returns (run: Run)
    requires Trying(w, e, tries, tries) && tries < INFINITE_UP_TRIES
    ensures Follows(w, run) && OneSession(w, run) && Refunds(w, run) == refunds
    ensures After(w, run).link.ctrl.counters.upRetry == w.link.ctrl.counters.upRetry + tries * refunds
    decreases refunds
  {
    if refunds == 0 {
      run := [];
    } else {
      GiveBack(w, e, tries, tries);
      OneStep(w, Async(true), e);
      run := [(Async(true), e)];
      var u := After(w, run);
      var retries := Retries(u, e, tries, 0);
      var rest := Rounds(After(u, retries), e, tries, refunds - 1);
      Joined(u, retries, rest);
      Joined(w, run, retries + rest);
      run := run + (retries + rest);
      assert tries * refunds == tries * (refunds - 1) + tries;
    }
  }

  /** For every number of tries and of async-downs while STARTING there is a session that makes exactly as
      many core link-up calls as CallsBounded allows. */
  lemma BoundReached(w: World, config: Config, e: Env, refunds: nat) returns (before: Run, run: Run)
    requires Initial(w) && w.now == e.t0 == e.t1 == e.t2 && e.serdesReady && e.cause == {}
    requires (config.settleMs == 0) == (config.checkMs == 0) && 1 <= config.triesMax < INFINITE_UP_TRIES
    ensures Follows(w, before) && Enabled(After(w, before), Up, e) && LinkUp(After(w, before).link, e).1 == Ok
    ensures var u := Next(After(w, before), (Up, e));
      && Follows(u, run) && OneSession(u, run) && Refunds(u, run) == refunds
      && 1 + After(u, run).link.ctrl.counters.upRetry - u.link.ctrl.counters.upRetry == config.triesMax * (refunds + 1)
  {
    before := [(SetConfig(config, true), e)];
    OneStep(w, SetConfig(config, true), e);
    var c := After(w, before);
    assert c.link.core.state == Configured && c.link.ctrl.state == CtrlDown && c.link.ctrl.config == config;
    var u := Next(c, (Up, e));
    assert Trying(u, e, config.triesMax, 1);
    var first := Retries(u, e, config.triesMax, 1);
    var rest := Rounds(After(u, first), e, config.triesMax, refunds);
    Joined(u, first, rest);
    run := first + rest;
    assert config.triesMax * (refunds + 1) == config.triesMax * refunds + config.triesMax;
  }

  // ------------------------------------------------------------------ clocks

  lemma ToMsMonotone(a: int, b: int)
    requires 0 <= a <= b
    ensures ToMs(a) <= ToMs(b)
  {
  }

  lemma OrderedReports(c: Clock, now: int, t: int)
    requires 0 < now <= t && ClockOk(c, now) && !Orphan(c)
    ensures ReportedAttempt(c, t) <= ReportedTotal(c, t)
  {
    if c.attemptStart == 0 { ToMsMonotone(c.attemptElapsed, c.elapsed); }
    else { ToMsMonotone(t - c.attemptStart, t - c.start); }
  }

  /** The attempt read first and the total read later. */
  lemma ClocksRead(w: World, run: Run, t: int, t': int)
    requires Initial(w) && Follows(w, run) && After(w, run).now <= t <= t'
    ensures var c := After(w, run).link.ctrl.clock;
      && 0 <= c.attemptElapsed && 0 <= c.elapsed && c.attemptStart <= t && c.start <= t'
      && (After(w, run).link.acct.refunds == 0 ==> ReportedAttempt(c, t) <= ReportedTotal(c, t'))
  {
    Reachable(w, run);
    var c := After(w, run).link.ctrl.clock;
    if After(w, run).link.acct.refunds == 0 {
      OrderedReports(c, After(w, run).now, t);
      if c.start != 0 { ToMsMonotone(t - c.start, t' - c.start); }
    }
  }

  /** In every reachable state the reported attempt time is at most the reported total time at every
      later reading exactly when no attempt clock runs alone, and that takes an async-down while
      STARTING in the session. */
  lemma AttemptWithinTotal(w: World, run: Run)
    requires Initial(w) && Follows(w, run)
    ensures var u := After(w, run); var c := u.link.ctrl.clock;
            && ((forall t :: t >= u.now ==> ReportedAttempt(c, t) <= ReportedTotal(c, t)) <==> !Orphan(c))
            && (Orphan(c) ==> u.link.acct.refunds > 0)
  {
    Reachable(w, run);
    var u := After(w, run);
    var c := u.link.ctrl.clock;
    if Orphan(c) {
      var t := u.now + 1_000_000;
      assert ReportedAttempt(c, t) >= 1 > ReportedTotal(c, t);
    } else {
      forall t | t >= u.now ensures ReportedAttempt(c, t) <= ReportedTotal(c, t) {
        OrderedReports(c, u.now, t);
      }
    }
  }

  lemma RefundNeeded(l: Link, st: Step, e: Env)
    requires l.acct.refunds == 0 && !(st.Async? && l.ctrl.state == CtrlStarting)
    ensures Effect(l, st, e).acct.refunds == 0
  {
  }

  lemma {:induction false} NoRefunds(w: World, run: Run)
    requires w.link.acct.refunds == 0 && Refunds(w, run) == 0
    ensures After(w, run).link.acct.refunds == 0
    decreases |run|
  {
    if run != [] {
      RefundNeeded(w.link, run[0].0, run[0].1);
      NoRefunds(Next(w, run[0]), run[1..]);
    }
  }

  /** Runs in which no async-down is raised while STARTING keep the two times in order. */
  lemma ClocksOrdered(w: World, run: Run, t: int)
    requires Initial(w) && Follows(w, run) && Refunds(w, run) == 0 && t >= After(w, run).now
    ensures ReportedAttempt(After(w, run).link.ctrl.clock, t) <= ReportedTotal(After(w, run).link.ctrl.clock, t)
  {
    NoRefunds(w, run);
    AttemptWithinTotal(w, run);
  }
}
