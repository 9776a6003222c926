/** The two layers in the driver's own form: objects whose fields the commands and callbacks overwrite.
    A control link is valid when its state is what some run of LinkSession from its creation leads to; every
    command and every completion of the core work takes one step of such a run and keeps it valid, so all
    that LinkTheorems says of runs holds of the object. */
module LinkObjects {
  import opened LinkModel
  import LinkSession
  import LinkTheorems

  class CoreLink {
    var state: CoreState
    var autoneg: bool
    var downCallback: DownCallback
    var queued: set<Work>
    var cancelTail: bool

    function View(): Core reads this {
      Core(state, autoneg, downCallback, queued, cancelTail)
    }

    /** On its way down, with the completion that reports it settled. */
    predicate Leaving() reads this { state.Canceling? || state.GoingDown? || state.Timeout? }

    constructor ()
      ensures View() == Core(Unconfigured, false, NoCallback, {}, false)
    {
      state, autoneg, downCallback, queued, cancelTail := Unconfigured, false, NoCallback, {}, false;
    }

    method Up(serdesReady: bool) returns (rtn: Rtn)
      modifies this
      ensures (View(), rtn) == CoreLinkUp(old(View()), serdesReady)
      ensures rtn.Ok? && (old(state.Configured?) || old(state.CoreDown?)) ==>
        state == (if autoneg then CoreAn else GoingUp) && autoneg == old(autoneg)
      ensures rtn.Ok? ==> state.GoingUp? || state.CoreAn? || state.CoreUp?
      ensures !rtn.Ok? ==> View() == old(View())
    {
      if !serdesReady { return EIO; }
      match state {
        case GoingUp | CoreAn | CoreUp =>
          rtn := Ok;
        case Configured | CoreDown =>
          state := if autoneg then CoreAn else GoingUp;
          rtn := Ok;
        case _ =>
          rtn := EBADRQC;
      }
    }

    method UpFail() returns (rtn: Rtn)
      modifies this
      ensures (View(), rtn) == CoreLinkUpFail(old(View()))
      ensures rtn.Ok? ==> Leaving()
      ensures !rtn.Ok? || old(Leaving()) ==> View() == old(View())
    {
      match state {
        case Canceling | GoingDown | Timeout =>
          rtn := Ok;
        case GoingUp | CoreAn =>
          state := GoingDown;
          queued := queued + {UpFailWork};
          rtn := Ok;
        case _ =>
          rtn := EBADRQC;
      }
    }

    method Cancel(callback: DownCallback) returns (rtn: Rtn)
      modifies this
      ensures (View(), rtn) == CoreLinkCancel(old(View()), callback)
      ensures rtn.Ok? ==> Leaving() && (!old(Leaving()) ==> downCallback == callback)
      ensures !rtn.Ok? || old(Leaving()) ==> View() == old(View())
    {
      if callback.NoCallback? { return EINVAL; }
      match state {
        case Canceling | GoingDown | Timeout =>
          rtn := Ok;
        case GoingUp | CoreAn =>
          downCallback := callback;
          state := Canceling;
          queued := queued + {UpCancelWork};
          rtn := Ok;
        case _ =>
          rtn := EBADRQC;
      }
    }

    method Down(callback: DownCallback) returns (rtn: Rtn)
      modifies this
      ensures (View(), rtn) == CoreLinkDown(old(View()), callback)
      ensures rtn.Ok? ==> Leaving() && (!old(Leaving()) ==> downCallback == callback)
      ensures !rtn.Ok? || old(Leaving()) ==> View() == old(View())
    {
      if callback.NoCallback? { return EINVAL; }
      match state {
        case Canceling | GoingDown | Timeout =>
          rtn := Ok;
        case CoreUp =>
          downCallback := callback;
          state := GoingDown;
          queued := queued + {DownWork};
          rtn := Ok;
        case _ =>
          rtn := EBADRQC;
      }
    }

    method ConfigSet(autoneg: bool) returns (rtn: Rtn)
      modifies this
      ensures (View(), rtn) == CoreLinkConfigSet(old(View()), autoneg)
      ensures rtn.Ok? ==> state.Configured? && this.autoneg == autoneg
      ensures !rtn.Ok? ==> View() == old(View())
    {
      match state {
        case Unconfigured | Configured | CoreDown =>
          state := Configuring;
          this.autoneg := autoneg;
          state := Configured;
          rtn := Ok;
        case _ =>
          rtn := EBADRQC;
      }
    }
  }

  /** The run a control link has made: where it started, the steps, and the time of the last. */
  class History {
    ghost const birth: LinkSession.World
    ghost var moves: LinkTheorems.Run
    ghost var now: int

    ghost constructor (birth: LinkSession.World)
      ensures this.birth == birth && moves == [] && now == birth.now
    {
      this.birth := birth;
      moves, now := [], birth.now;
    }

    ghost predicate Leads(l: Link) reads this {
      && LinkSession.Initial(birth) && LinkSession.Follows(birth, moves)
      && LinkSession.After(birth, moves) == LinkSession.World(l, now)
    }

    ghost method Took(st: LinkSession.Step, e: Env)
      requires LinkSession.Initial(birth) && LinkSession.Follows(birth, moves)
      requires LinkSession.Enabled(LinkSession.After(birth, moves), st, e)
      modifies this
      ensures Leads(LinkSession.Effect(old(LinkSession.After(birth, moves)).link, st, e))
      ensures moves == old(moves) + [(st, e)] && now == e.t2
    {
      LinkTheorems.Extended(birth, moves, st, e);
      moves := moves + [(st, e)];
      now := e.t2;
    }
  }

  class CtrlLink {
    const core: CoreLink
    ghost const history: History
    var state: CtrlState
    var isCanceled: bool
    var config: Config
    var policy: Policy
    var clock: Clock
    var counters: Counters
    var upFailCause: CauseMap
    var downComplete: bool
    var log: seq<Event>
    ghost var acct: Account

    ghost function View(): Link reads this, core {
      Link(Ctrl(state, isCanceled, config, policy, clock, counters, upFailCause, downComplete),
           core.View(), log, acct)
    }

    ghost predicate Valid() reads this, core, history { history.Leads(View()) }

    ghost predicate InTime(e: Env) reads this, history { history.now <= e.t0 <= e.t1 <= e.t2 }

    ghost predicate CanHappen(st: LinkSession.Step, e: Env) reads this, core, history {
      LinkSession.Enabled(LinkSession.World(View(), history.now), st, e)
    }

    /** All attempts made are up, failed or refused. */
    ghost predicate Balanced() reads this {
      counters.upCmd + counters.upRetry == counters.up + counters.upFail + acct.refused
    }

    constructor (core: CoreLink, config: Config, policy: Policy, ghost now: int)
      requires core.View() == Core(Unconfigured, false, NoCallback, {}, false) && now > 0
      ensures this.core == core && Valid() && fresh(history) && history.moves == [] && history.now == now
      ensures state == CtrlDown && this.config == config && this.policy == policy && log == []
    {
      this.core := core;
      state, isCanceled := CtrlDown, false;
      this.config, this.policy := config, policy;
      clock, counters := CLOCK_ZERO, Counters(0, 0, 0, 0, 0, 0, 0, 0, 0);
      upFailCause, downComplete, log := {}, false, [];
      acct := Account(false, 1, 0, 0, 0, 0, false, 0);
      history := new History(LinkSession.World(Link(
        Ctrl(CtrlDown, false, config, policy, CLOCK_ZERO, Counters(0, 0, 0, 0, 0, 0, 0, 0, 0), {}, false),
        core.View(), [], Account(false, 1, 0, 0, 0, 0, false, 0)), now));
    }

    // ---------------------------------------------------------------- helpers

    method ClockStart(t: int)
      modifies this`clock
      ensures clock == LinkModel.ClockStart(old(clock), t)
    {
      clock := clock.(start := t, elapsed := 0, attemptCount := 0);
    }

    method ClockStop(t: int, t': int)
      modifies this`clock
      ensures clock == LinkModel.ClockStop(old(clock), t, t')
    {
      clock := clock.(elapsed := t - clock.start);
      clock := clock.(start := 0, up := t');
    }

    method AttemptStart(t: int)
      modifies this`clock
      ensures clock == LinkModel.AttemptStart(old(clock), t)
    {
      clock := clock.(attemptStart := t, attemptElapsed := 0,
                      attemptCount := (clock.attemptCount + 1) % 0x1_0000_0000);
    }

    method AttemptStop(t: int)
      modifies this`clock
      ensures clock == LinkModel.AttemptStop(old(clock), t)
    {
      clock := clock.(attemptElapsed := t - clock.attemptStart);
      clock := clock.(attemptStart := 0);
    }

    method ClockReset()
      modifies this`clock
      ensures clock == CLOCK_ZERO
    {
      clock := clock.(elapsed := 0, start := 0, attemptCount := 0);
      clock := clock.(attemptElapsed := 0, attemptStart := 0, up := 0);
    }

    method StoppingSet()
      modifies this`state
      ensures state == (match old(state)
                        case CtrlStarting => CtrlStopping
                        case CtrlUp => CtrlStopping
                        case CtrlUpDownReq => CtrlStopping
                        case s => s)
    {
      match state {
        case CtrlStarting | CtrlUp | CtrlUpDownReq => state := CtrlStopping;
        case _ =>
      }
    }

    method Announce(v: Event)
      modifies this`log
      ensures log == old(log) + [v]
    {
      log := log + [v];
    }

    method Finish(n: Notif)
      modifies this`log, this`state, this`downComplete, this`acct
      ensures View() == LinkModel.Finish(old(View()), n)
    {
      Announce(Flushed);
      state := CtrlDown;
      Announce(StateDown);
      downComplete := true;
      Announce(Completed);
      Announce(Notified(n));
      acct := acct.(terminals := acct.terminals + 1);
      assert log == old(log) + Ending(n);
    }

    method GiveUp(n: Notif)
      modifies this
      ensures View() == LinkModel.GiveUp(old(View()), n)
    {
      ClockReset();
      StoppingSet();
      Finish(n);
    }

    // ---------------------------------------------------------------- callbacks

    method Retry(e: Env) returns (rtn: Rtn)
      modifies this, core
      ensures (View(), rtn) == LinkModel.Retry(old(View()), e)
    {
      counters := counters.(upRetry := counters.upRetry + 1);
      AttemptStart(e.t1);
      acct := acct.(calls := acct.calls + 1);
      rtn := core.Up(e.serdesReady);
      if !rtn.Ok? {
        acct := acct.(refused := acct.refused + 1);
        GiveUp(ErrorNotif);
      }
    }

    method AttemptDown(e: Env) returns (rtn: Rtn)
      modifies this, core
      ensures (View(), rtn) == LinkModel.AttemptDown(old(View()), e)
    {
      counters := counters.(upFail := counters.upFail + 1);
      if isCanceled {
        GiveUp(UpFailNotif);
        return Ok;
      }
      if clock.attemptCount >= config.triesMax && config.triesMax != INFINITE_UP_TRIES {
        upFailCause := upFailCause + UP_TRIES_MAP;
        GiveUp(UpFailNotif);
        return Ok;
      }
      if !(upFailCause !! FATAL_MASK) {
        GiveUp(UpFailNotif);
        return Ok;
      }
      rtn := Retry(e);
    }

    method UpCallback(coreState: CoreState, e: Env) returns (rtn: Rtn)
      modifies this, core
      ensures (View(), rtn) == LinkModel.UpCallback(old(View()), coreState, e)
    {
      upFailCause := {};
      upFailCause := upFailCause + e.cause;
      assert upFailCause == e.cause;
      AttemptStop(e.t0);
      match coreState {
        case CoreUp =>
          counters := counters.(up := counters.up + 1);
          ClockStop(e.t1, e.t2);
          state := CtrlUp;
          Announce(Notified(LinkUpNotif));
          acct := acct.(ups := acct.ups + 1);
          rtn := Ok;
        case CoreDown =>
          rtn := AttemptDown(e);
        case _ =>
          GiveUp(ErrorNotif);
          rtn := EBADRQC;
      }
    }

    method DownCallback(coreState: CoreState, cause: CauseMap) returns (rtn: Rtn)
      modifies this
      ensures (View(), rtn) == DownCallbackFor(old(View()), coreState, cause, DownNotif)
    {
      match coreState {
        case CoreDown =>
          counters := counters.(down := counters.down + 1);
          if CANCELED in cause {
            counters := counters.(upCanceled := counters.upCanceled + 1);
          }
          Finish(DownNotif);
          rtn := Ok;
        case _ =>
          rtn := EBADRQC;
      }
    }

    method AsyncDownCallback(coreState: CoreState, cause: CauseMap) returns (rtn: Rtn)
      modifies this
      ensures (View(), rtn) == DownCallbackFor(old(View()), coreState, cause, AsyncDownNotif)
    {
      match coreState {
        case CoreDown =>
          counters := counters.(down := counters.down + 1);
          Finish(AsyncDownNotif);
          rtn := Ok;
        case _ =>
          rtn := EBADRQC;
      }
    }

    method FaultStartCallback()
      modifies this
      ensures View() == LinkModel.FaultStartCallback(old(View()))
    {
      state := CtrlStopping;
    }

    method FaultCallback(coreState: CoreState)
      modifies this
      ensures View() == LinkModel.FaultCallback(old(View()), coreState)
    {
      counters := counters.(faultAsync := counters.faultAsync + 1);
      ClockReset();
      match coreState {
        case CoreDown =>
          counters := counters.(down := counters.down + 1);
          Finish(AsyncDownNotif);
        case _ =>
          Finish(ErrorNotif);
      }
    }

    // ---------------------------------------------------------------- commands

    method UpRefused()
      modifies this
      ensures View() == LinkModel.UpRefused(old(View()))
    {
      acct := acct.(active := false, refused := acct.refused + 1);
      state := CtrlStopping;
      ClockReset();
      state := CtrlDown;
    }

    method UpCmd(e: Env) returns (rtn: Rtn)
      modifies this, core
      ensures (View(), rtn) == LinkUpCmd(old(View()), e)
    {
      counters := counters.(upCmd := counters.upCmd + 1);
      ClockStart(e.t0);
      isCanceled := false;
      downComplete := false;
      AttemptStart(e.t1);
      acct := Account(true, Max1(config.triesMax), 1, 0, 0, 0, false, acct.refused);
      rtn := core.Up(e.serdesReady);
      if !rtn.Ok? {
        UpRefused();
      }
    }

    method UpSwitch(e: Env) returns (rtn: Rtn)
      modifies this, core
      ensures (View(), rtn) == LinkUp(old(View()), e)
    {
      match state {
        case CtrlDown =>
          state := CtrlStarting;
          rtn := UpCmd(e);
        case CtrlStarting =>
          rtn := EINPROGRESS;
        case CtrlUp | CtrlUpDownReq =>
          rtn := EALREADY;
        case _ =>
          rtn := EBADRQC;
      }
    }

    /** A session starts exactly from DOWN with serdes ready and a configured core, and core goes up as the
        configuration says; nothing else changes the state, core or what clients are told. */
    method Up(e: Env) returns (rtn: Rtn)
      requires Valid() && InTime(e)
      modifies this, core, history
      ensures Valid() && history.now == e.t2
      ensures history.moves == old(history.moves) + [(LinkSession.Step.Up, e)]
      ensures rtn.Ok? <==> old(state) == CtrlDown && e.serdesReady && old(core.state) != Unconfigured
      ensures rtn.Ok? ==>
        && state == CtrlStarting && LinkSession.AttemptPending(core.View())
        && config == old(config) && core.state == (if config.autoneg then CoreAn else GoingUp)
        && !isCanceled && !downComplete
        && clock.start == e.t0 && clock.attemptStart == e.t1 && clock.attemptCount == 1
      ensures rtn.EINPROGRESS? <==> old(state) == CtrlStarting
      ensures rtn.EALREADY? <==> old(state) == CtrlUp || old(state) == CtrlUpDownReq
      ensures rtn.EIO? <==> old(state) == CtrlDown && !e.serdesReady
      ensures counters.upCmd == old(counters.upCmd) + (if old(state) == CtrlDown then 1 else 0)
      ensures !rtn.Ok? ==> state == old(state) && core.View() == old(core.View()) && log == old(log)
    {
      LinkTheorems.UpAccepted(history.birth, history.moves, e);
      LinkTheorems.UpAnswered(history.birth, history.moves, e);
      rtn := UpSwitch(e);
      history.Took(LinkSession.Step.Up, e);
    }

    method CancelCmd() returns (rtn: Rtn)
      modifies this`counters, core
      ensures (core.View(), rtn) == CoreLinkCancel(old(core.View()), OnDown)
      ensures counters == old(counters).(upCancelCmd := old(counters).upCancelCmd + 1)
    {
      counters := counters.(upCancelCmd := counters.upCancelCmd + 1);
      rtn := core.Cancel(OnDown);
    }

    method DownCmd() returns (rtn: Rtn)
      modifies this`counters, this`clock, core
      ensures (core.View(), rtn) == CoreLinkDown(old(core.View()), OnDown)
      ensures counters == old(counters).(downCmd := old(counters).downCmd + 1) && clock == CLOCK_ZERO
    {
      counters := counters.(downCmd := counters.downCmd + 1);
      ClockReset();
      rtn := core.Down(OnDown);
    }

    method DownSwitch() returns (rtn: Rtn)
      modifies this, core
      ensures (View(), rtn) == LinkDown(old(View()))
    {
      match state {
        case CtrlStarting =>
          state := CtrlStopping;
          isCanceled := true;
          rtn := CancelCmd();
        case CtrlUp | CtrlUpDownReq =>
          state := CtrlStopping;
          rtn := DownCmd();
        case CtrlDown =>
          rtn := EALREADY;
        case CtrlStopping =>
          rtn := EINPROGRESS;
        case _ =>
          rtn := EBADRQC;
      }
    }

    /** A session that is on is told to stop, and core with it; otherwise nothing changes. */
    method Down(ghost e: Env) returns (rtn: Rtn)
      requires Valid() && InTime(e)
      modifies this, core, history
      ensures Valid() && history.now == e.t2
      ensures history.moves == old(history.moves) + [(LinkSession.Step.Down, e)]
      ensures rtn.Ok? <==> old(state) == CtrlStarting || old(state) == CtrlUp || old(state) == CtrlUpDownReq
      ensures rtn.Ok? ==> state == CtrlStopping && core.state != CoreState.CoreUp
      ensures rtn.Ok? && old(state) == CtrlStarting ==>
        isCanceled && LinkSession.AttemptPending(core.View()) && counters.upCancelCmd == old(counters).upCancelCmd + 1
      ensures rtn.Ok? && old(state) == CtrlStarting && (old(core.state) == CoreAn || old(core.state) == GoingUp) ==>
        core.state == Canceling && core.queued == {UpCancelWork} && core.downCallback == OnDown
      ensures rtn.Ok? && old(state) != CtrlStarting ==>
        && core.state == GoingDown && core.queued == {DownWork} && core.downCallback == OnDown
        && clock == CLOCK_ZERO && counters.downCmd == old(counters).downCmd + 1
      ensures rtn.EALREADY? <==> old(state) == CtrlDown
      ensures rtn.EINPROGRESS? <==> old(state) == CtrlStopping
      ensures log == old(log)
      ensures !rtn.Ok? ==> View() == old(View())
    {
      LinkTheorems.Reachable(history.birth, history.moves);
      LinkTheorems.DownAnswered(history.birth, history.moves, false);
      rtn := DownSwitch();
      history.Took(LinkSession.Step.Down, e);
    }

    method AsyncDownSwitch(force: bool) returns (rtn: Rtn)
      modifies this, core
      ensures (View(), rtn) == LinkModel.AsyncDown(old(View()), force)
    {
      ClockReset();
      match state {
        case CtrlUpDownReq =>
          rtn := Ok;
        case CtrlUp =>
          if !force && policy.downReq {
            state := CtrlUpDownReq;
            Announce(Notified(DownReqNotif));
            return Ok;
          }
          state := CtrlStopping;
          rtn := core.Down(OnAsyncDown);
        case CtrlDown | CtrlStopping =>
          rtn := Ok;
        case CtrlStarting =>
          acct := acct.(refunds := acct.refunds + 1);
          rtn := EBADRQC;
        case _ =>
          rtn := EBADRQC;
      }
    }

    /** Refused exactly while a session is starting, and only a link that is UP moves: to a request to its
        client if the policy asks for one, else down. The clocks are cleared whatever the answer. */
    method AsyncDown(force: bool, ghost e: Env) returns (rtn: Rtn)
      requires Valid() && InTime(e)
      modifies this, core, history
      ensures Valid() && history.now == e.t2
      ensures history.moves == old(history.moves) + [(LinkSession.Step.Async(force), e)]
      ensures clock == CLOCK_ZERO && (rtn.Ok? <==> old(state) != CtrlStarting) && (rtn.Ok? || rtn.EBADRQC?)
      ensures old(state) != CtrlUp ==> state == old(state) && core.View() == old(core.View()) && log == old(log)
      ensures old(state) == CtrlUp && !force && policy.downReq ==>
        state == CtrlUpDownReq && core.View() == old(core.View()) && log == old(log) + [Notified(DownReqNotif)]
      ensures old(state) == CtrlUp && (force || !policy.downReq) ==>
        state == CtrlStopping && DownWork in core.queued && core.downCallback == OnAsyncDown && log == old(log)
    {
      LinkTheorems.Reachable(history.birth, history.moves);
      rtn := AsyncDownSwitch(force);
      history.Took(LinkSession.Step.Async(force), e);
    }

    method ConfigSwitch(config: Config, admin: bool) returns (rtn: Rtn)
      modifies this, core
      ensures (View(), rtn) == LinkConfigSet(old(View()), config, admin)
    {
      match state {
        case CtrlDown =>
          if !admin && this.config.lock { return Ok; }
          if (config.settleMs == 0 && config.checkMs != 0) || (config.settleMs != 0 && config.checkMs == 0) {
            return EINVAL;
          }
          rtn := core.ConfigSet(config.autoneg);
          if !rtn.Ok? { return; }
          this.config := config;
        case _ =>
          rtn := EBADRQC;
      }
    }

    /** While DOWN a configuration that is allowed and consistent is in force in both layers afterwards;
        otherwise nothing changes, and a locked one says Ok. */
    method ConfigSet(config: Config, admin: bool, ghost e: Env) returns (rtn: Rtn)
      requires Valid() && InTime(e)
      modifies this, core, history
      ensures Valid() && history.now == e.t2
      ensures history.moves == old(history.moves) + [(LinkSession.Step.SetConfig(config, admin), e)]
      ensures
        var allowed := admin || !old(this.config.lock);
        var consistent := (config.settleMs == 0) == (config.checkMs == 0);
        && (rtn.Ok? <==> old(state) == CtrlDown && (!allowed || consistent))
        && (rtn.Ok? && allowed ==> this.config == config && core.state == Configured && core.autoneg == config.autoneg)
        && (!rtn.Ok? || !allowed ==> View() == old(View()))
        && (rtn.EINVAL? <==> old(state) == CtrlDown && allowed && !consistent)
        && (rtn.EBADRQC? <==> old(state) != CtrlDown)
    {
      LinkTheorems.ConfigAnswered(View(), config, admin);
      LinkTheorems.AcceptedByBoth(history.birth, history.moves, false, config, admin);
      rtn := ConfigSwitch(config, admin);
      history.Took(LinkSession.Step.SetConfig(config, admin), e);
    }

    method PolicySet(policy: Policy, admin: bool, ghost e: Env)
      requires Valid() && InTime(e)
      modifies this, history
      ensures Valid() && history.now == e.t2
      ensures history.moves == old(history.moves) + [(LinkSession.Step.SetPolicy(policy, admin), e)]
      ensures this.policy == if admin || !old(this.policy.lock) then policy else old(this.policy)
    {
      if admin || !this.policy.lock {
        this.policy := policy;
      }
      history.Took(LinkSession.Step.SetPolicy(policy, admin), e);
    }

    // ---------------------------------------------------------------- ends of the core work

    /** A successful attempt: the link is UP in both layers, its clients are told, its total time is kept and
        no attempt is left unaccounted for. */
    method UpSuccess(e: Env)
      requires Valid() && CanHappen(LinkSession.Step.Success, e)
      modifies this, core, history
      ensures Valid() && history.now == e.t2
      ensures history.moves == old(history.moves) + [(LinkSession.Step.Success, e)]
      ensures state == CtrlUp && core.state == CoreState.CoreUp && log == old(log) + [Notified(LinkUpNotif)]
      ensures clock.start == 0 && clock.elapsed == e.t1 - old(clock.start) && clock.up == e.t2
      ensures clock.attemptStart == 0 && clock.attemptElapsed == e.t0 - old(clock.attemptStart)
      ensures 0 <= clock.attemptElapsed <= clock.elapsed
      ensures counters.up == old(counters.up) + 1 && upFailCause == e.cause && Balanced()
    {
      LinkTheorems.Reachable(history.birth, history.moves);
      core.state := CoreState.CoreUp;
      var rtn := UpCallback(core.state, e);
      history.Took(LinkSession.Step.Success, e);
      LinkTheorems.Reachable(history.birth, history.moves);
    }

    method FailureWork(e: Env)
      modifies this, core
      ensures View() == LinkModel.AttemptFailed(old(View()), e)
    {
      core.queued := core.queued - {UpFailWork};
      core.state := CoreState.CoreDown;
      var rtn := UpCallback(core.state, e);
    }

    /** An attempt that timed out or failed: retried exactly when it should be, or else the session is over,
        its clients told why, the waiters released and every attempt accounted for. */
    method AttemptFailed(timeout: bool, e: Env)
      requires Valid() && CanHappen(if timeout then LinkSession.TimeoutEnds else LinkSession.UpFailEnds, e)
      modifies this, core, history
      ensures Valid() && history.now == e.t2
      ensures history.moves
           == old(history.moves) + [(if timeout then LinkSession.TimeoutEnds else LinkSession.UpFailEnds, e)]
      ensures LinkTheorems.RetriedRight(old(View()), View(), e)
      ensures log == old(log) + LinkTheorems.LogOf(LinkTheorems.FailureEnding(old(View()), e))
      ensures upFailCause == LinkTheorems.FailureCause(old(View()), e)
      ensures state == CtrlDown ==> downComplete && clock == CLOCK_ZERO && Balanced()
    {
      ghost var st := if timeout then LinkSession.TimeoutEnds else LinkSession.UpFailEnds;
      LinkTheorems.FailureLeaves(history.birth, history.moves, st, e);
      FailureWork(e);
      history.Took(st, e);
    }

    method CancelWork(e: Env)
      modifies this, core
      ensures View() == LinkModel.CancelReported(old(View()), e)
    {
      core.queued := core.queued - {UpCancelWork};
      core.cancelTail := true;
      core.state := CoreState.CoreDown;
      var rtn := UpCallback(core.state, e);
    }

    /** A canceled attempt: never retried, told as failed, with the second callback still to come. */
    method CancelReported(e: Env)
      requires Valid() && CanHappen(LinkSession.CancelReports, e)
      modifies this, core, history
      ensures Valid() && history.now == e.t2
      ensures history.moves == old(history.moves) + [(LinkSession.Step.CancelReports, e)]
      ensures state == CtrlDown && downComplete && Balanced() && log == old(log) + Ending(UpFailNotif)
      ensures clock == CLOCK_ZERO && upFailCause == e.cause && counters.upFail == old(counters.upFail) + 1
      ensures core.state == CoreState.CoreDown && core.cancelTail && !core.downCallback.NoCallback?
    {
      LinkTheorems.CancelLeaves(history.birth, history.moves, e);
      CancelWork(e);
      history.Took(LinkSession.CancelReports, e);
    }

    method RunDownCallback(cause: CauseMap)
      modifies this
      ensures View() == LinkModel.RunDownCallback(old(View()), cause)
    {
      match core.downCallback {
        case NoCallback =>
        case OnDown =>
          var rtn := DownCallback(core.state, cause);
        case OnAsyncDown =>
          var rtn := AsyncDownCallback(core.state, cause);
      }
    }

    method TailWork(cause: CauseMap)
      modifies this, core
      ensures View() == LinkModel.CancelTail(old(View()), cause)
    {
      core.cancelTail := false;
      RunDownCallback(cause);
      acct := acct.(tailDone := acct.tailDone || core.state == CoreState.CoreDown);
    }

    /** The second callback of a cancel: a second ending exactly when core is still DOWN, and otherwise
        nothing to the control layer. */
    method CancelTail(cause: CauseMap, e: Env)
      requires Valid() && CanHappen(LinkSession.CancelEnds(cause), e)
      modifies this, core, history
      ensures Valid() && history.now == e.t2
      ensures history.moves == old(history.moves) + [(LinkSession.Step.CancelEnds(cause), e)]
      ensures state == old(state) && core.View() == old(core.View()).(cancelTail := false) && clock == old(clock)
      ensures log == old(log) + (if old(core.state) != CoreState.CoreDown then []
                                 else if core.downCallback == OnDown then Ending(DownNotif)
                                 else Ending(AsyncDownNotif))
      ensures counters == (if old(core.state) == CoreState.CoreDown
                           then LinkTheorems.DownCounted(old(counters), core.downCallback, cause) else old(counters))
    {
      LinkTheorems.Reachable(history.birth, history.moves);
      TailWork(cause);
      history.Took(LinkSession.CancelEnds(cause), e);
    }

    method DownWorkEnds(cause: CauseMap)
      modifies this, core
      ensures View() == LinkModel.DownDone(old(View()), cause)
    {
      core.queued := core.queued - {DownWork};
      core.state := CoreState.CoreDown;
      RunDownCallback(cause);
    }

    /** A commanded down ends the session with the announcement its command asked for. */
    method DownDone(cause: CauseMap, e: Env)
      requires Valid() && CanHappen(LinkSession.DownEnds(cause), e)
      modifies this, core, history
      ensures Valid() && history.now == e.t2
      ensures history.moves == old(history.moves) + [(LinkSession.Step.DownEnds(cause), e)]
      ensures state == CtrlDown && downComplete && Balanced()
      ensures core.state == CoreState.CoreDown && core.queued == {}
      ensures log == old(log) + Ending(if old(core.downCallback) == OnDown then DownNotif else AsyncDownNotif)
      ensures counters == LinkTheorems.DownCounted(old(counters), old(core.downCallback), cause)
    {
      LinkTheorems.DownLeaves(history.birth, history.moves, cause, e);
      DownWorkEnds(cause);
      history.Took(LinkSession.DownEnds(cause), e);
    }

    /** A fault on a link that is up: both layers are on their way down and nobody is told yet. */
    method FaultStart(e: Env)
      requires Valid() && CanHappen(LinkSession.Faults, e)
      modifies this, core, history
      ensures Valid() && history.now == e.t2
      ensures history.moves == old(history.moves) + [(LinkSession.Step.Faults, e)]
      ensures state == CtrlStopping && core.state == GoingDown && core.queued == {FaultWork} && log == old(log)
    {
      LinkTheorems.Reachable(history.birth, history.moves);
      core.state := GoingDown;
      core.queued := core.queued + {FaultWork};
      FaultStartCallback();
      history.Took(LinkSession.Faults, e);
    }

    method FaultWorkEnds()
      modifies this, core
      ensures View() == LinkModel.FaultDone(old(View()))
    {
      core.queued := core.queued - {FaultWork};
      core.state := CoreState.CoreDown;
      FaultCallback(core.state);
    }

    /** It ends the session as an async-down. */
    method FaultDone(e: Env)
      requires Valid() && CanHappen(LinkSession.FaultEnds, e)
      modifies this, core, history
      ensures Valid() && history.now == e.t2
      ensures history.moves == old(history.moves) + [(LinkSession.Step.FaultEnds, e)]
      ensures state == CtrlDown && downComplete && clock == CLOCK_ZERO && Balanced()
      ensures core.state == CoreState.CoreDown && core.queued == {} && log == old(log) + Ending(AsyncDownNotif)
      ensures counters == old(counters).(down := old(counters.down) + 1, faultAsync := old(counters.faultAsync) + 1)
    {
      LinkTheorems.FaultLeaves(history.birth, history.moves, e);
      FaultWorkEnds();
      history.Took(LinkSession.FaultEnds, e);
    }

    // ---------------------------------------------------------------- readings

    /** The whole milliseconds of the running or the kept clocks, read one after the other; without an
        async-down while STARTING the attempt's are never more than the total's. */
    method ClocksGet(t0: int, t1: int, t2: int) returns (attempt: int, total: int, upTime: int)
      requires Valid() && history.now <= t0 <= t1 <= t2
      ensures Whole(attempt, if clock.attemptStart == 0 then clock.attemptElapsed else t0 - clock.attemptStart)
      ensures Whole(total, if clock.start == 0 then clock.elapsed else t1 - clock.start)
      ensures if clock.up == 0 then upTime == 0 else t2 >= clock.up ==> Whole(upTime, t2 - clock.up)
      ensures acct.refunds == 0 ==> attempt <= total
    {
      LinkTheorems.ClocksRead(history.birth, history.moves, t0, t1);
      if clock.attemptStart == 0 { attempt := ToMs(clock.attemptElapsed); }
      else { attempt := ToMs(t0 - clock.attemptStart); }
      if clock.start == 0 { total := ToMs(clock.elapsed); }
      else { total := ToMs(t1 - clock.start); }
      if clock.up == 0 { upTime := 0; }
      else { upTime := ToMs(t2 - clock.up); }
    }
  }

  /** ms are the whole milliseconds in ns nanoseconds. */
  predicate Whole(ms: int, ns: int) { ms * 1_000_000 <= ns < (ms + 1) * 1_000_000 }
}
