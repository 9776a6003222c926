/** Every run of the two layers together. One step is one call into the control layer or one
    callback of the core layer with the core state change in front of it; which step comes next, all
    clock readings, causes and hardware outcomes are arbitrary. */
module LinkSession {
  import opened Common
  import opened LinkModel

  datatype World = World(link: Link, now: int)

  datatype Step =
    | Up | Down | Async(force: bool) | SetConfig(config: Config, admin: bool)
    | SetPolicy(policy: Policy, admin: bool) | Wait
    | AnDone | Success | UpFails | TimesOut | UpFailEnds | TimeoutEnds
    | CancelReports | CancelEnds(cause: CauseMap) | DownEnds(cause: CauseMap) | Faults | FaultEnds

  /** The environment contract: when each completion of the core work can happen. */
  predicate Enabled(w: World, st: Step, e: Env) {
    var core := w.link.core;
    && w.now <= e.t0 <= e.t1 <= e.t2
    && match st
       case AnDone => core.state == CoreAn
       case Success => core.state == GoingUp
       case UpFails => true
       case TimesOut => core.state == GoingUp || core.state == CoreAn
       case UpFailEnds => core.state == GoingDown && UpFailWork in core.queued
       case TimeoutEnds => core.state == Timeout
       case CancelReports => core.state == Canceling && UpCancelWork in core.queued && !core.cancelTail
       case CancelEnds(_) => core.cancelTail
       case DownEnds(_) => core.state == GoingDown && DownWork in core.queued
       case Faults => core.state == CoreUp
       case FaultEnds => core.state == GoingDown && FaultWork in core.queued
       case _ => true
  }

  function Effect(l: Link, st: Step, e: Env): Link {
    match st
    case Up => LinkUp(l, e).0
    case Down => LinkDown(l).0
    case Async(force) => AsyncDown(l, force).0
    case SetConfig(config, admin) => LinkConfigSet(l, config, admin).0
    case SetPolicy(policy, admin) => LinkPolicySet(l, policy, admin)
    case Wait => l
    case AnDone => l.(core := l.core.(state := GoingUp))
    case Success => UpSuccess(l, e)
    case UpFails => l.(core := CoreLinkUpFail(l.core).0)
    case TimesOut => l.(core := l.core.(state := Timeout))
    case UpFailEnds => AttemptFailed(l, e)
    case TimeoutEnds => AttemptFailed(l, e)
    case CancelReports => CancelReported(l, e)
    case CancelEnds(cause) => CancelTail(l, cause)
    case DownEnds(cause) => DownDone(l, cause)
    case Faults => FaultStart(l)
    case FaultEnds => FaultDone(l)
  }

  function Next(w: World, m: (Step, Env)): World {
    World(Effect(w.link, m.0, m.1), m.1.t2)
  }

  /** A run is a list of moves; `Follows` says each is enabled where it is made. */
  predicate Follows(w: World, run: seq<(Step, Env)>)
    decreases |run|
  {
    run == [] || (Enabled(w, run[0].0, run[0].1) && Follows(Next(w, run[0]), run[1..]))
  }

  function After(w: World, run: seq<(Step, Env)>): World
    decreases |run|
  {
    if run == [] then w else After(Next(w, run[0]), run[1..])
  }

  /** A link as it is created, with any configuration. */
  predicate Initial(w: World) {
    && w.now > 0
    && w.link.ctrl.state == CtrlDown
    && !w.link.ctrl.isCanceled
    && w.link.ctrl.clock == CLOCK_ZERO
    && w.link.ctrl.counters == Counters(0, 0, 0, 0, 0, 0, 0, 0, 0)
    && w.link.core.state == Unconfigured
    && w.link.core.queued == {}
    && w.link.core.downCallback == NoCallback
    && !w.link.core.cancelTail
    && w.link.log == []
    && w.link.acct == Account(false, 1, 0, 0, 0, 0, false, 0)
  }

  // ------------------------------------------------------------------ what every run keeps

  predicate AttemptPending(c: Core) {
    || c.state == CoreAn || c.state == GoingUp || c.state == Timeout || c.state == Canceling
    || (c.state == GoingDown && UpFailWork in c.queued)
  }

  /** How the states of the two layers go together, and which core work is queued. */
  predicate Coupled(l: Link) {
    var c := l.core;
    match l.ctrl.state
    case CtrlDown =>
      (c.state == Unconfigured || c.state == Configured || c.state == CoreDown) && c.queued == {}
    case CtrlStarting =>
      || ((c.state == CoreAn || c.state == GoingUp || c.state == Timeout) && c.queued == {})
      || (c.state == GoingDown && c.queued == {UpFailWork})
    case CtrlUp => c.state == CoreUp && c.queued == {}
    case CtrlUpDownReq => c.state == CoreUp && c.queued == {}
    case CtrlStopping =>
      || (c.state == Canceling && c.queued == {UpCancelWork})
      || (c.state == Timeout && c.queued == {})
      || (c.state == GoingDown &&
          (c.queued == {UpFailWork} || c.queued == {DownWork} || c.queued == {FaultWork}))
    case _ => false
  }

  /** A configured core has the auto-negotiation flag of the control layer's configuration. */
  predicate Agreed(l: Link) {
    l.core.state != Unconfigured ==> l.core.autoneg == l.ctrl.config.autoneg
  }

  /** An attempt still pending after the session is told to stop has been canceled, and only then. */
  predicate CancelMarked(l: Link) {
    && (l.ctrl.state == CtrlStarting ==> !l.ctrl.isCanceled)
    && (l.ctrl.state == CtrlStopping && AttemptPending(l.core) ==> l.ctrl.isCanceled)
    && (l.core.state == Canceling || DownWork in l.core.queued || l.core.cancelTail ==>
        !l.core.downCallback.NoCallback?)
  }

  /** Every attempt handed to core is up, failed, refused, or still out. */
  predicate Conserved(l: Link) {
    var n := l.ctrl.counters;
    n.upCmd + n.upRetry == n.up + n.upFail + l.acct.refused + (if AttemptPending(l.core) then 1 else 0)
  }

  /** At most one LINK_UP; one ending, plus one when the second callback of a cancel found the
      core still DOWN. */
  predicate Accounted(l: Link) {
    var a := l.acct;
    match l.ctrl.state
    case CtrlDown =>
      && a.terminals == (if a.active then 1 else 0) + (if a.tailDone then 1 else 0)
      && a.ups <= 1
      && (l.core.cancelTail ==> !a.tailDone)
    case CtrlStarting => a.active && a.ups == 0 && a.terminals == 0 && !a.tailDone
    case CtrlUp => a.active && a.ups == 1 && a.terminals == 0 && !a.tailDone
    case CtrlUpDownReq => a.active && a.ups == 1 && a.terminals == 0 && !a.tailDone
    case CtrlStopping =>
      a.active && a.ups == (if AttemptPending(l.core) then 0 else 1) && a.terminals == 0 && !a.tailDone
    case _ => true
  }

  /** `limit` tries granted `times` times over. */
  function Granted(limit: nat, times: nat): nat {
    if times == 0 then 0 else Granted(limit, times - 1) + limit
  }

  /** Each async-down raised while STARTING gives the session its tries back once. */
  predicate TriesBounded(l: Link) {
    var a := l.acct;
    && a.limit >= 1
    && (a.limit != INFINITE_UP_TRIES ==> a.calls <= Granted(a.limit, a.refunds + 1))
    && (l.ctrl.state == CtrlStarting && l.ctrl.config.triesMax != INFINITE_UP_TRIES ==>
        && l.ctrl.clock.attemptCount <= a.limit
        && a.calls <= Granted(a.limit, a.refunds) + l.ctrl.clock.attemptCount)
    && (l.ctrl.state == CtrlStarting ==> a.limit == Max1(l.ctrl.config.triesMax))
  }

  /** An attempt clock that runs while the total clock does not. */
  predicate Orphan(c: Clock) { c.attemptStart > 0 && c.start == 0 }

  predicate ClockOk(c: Clock, now: int) {
    && 0 <= c.start <= now && 0 <= c.attemptStart <= now && 0 <= c.attemptElapsed && 0 <= c.elapsed
    && (c.attemptStart > 0 && c.start > 0 ==> c.start <= c.attemptStart)
    && (c.attemptStart == 0 ==> c.start == 0 && c.attemptElapsed <= c.elapsed)
    && (Orphan(c) ==> c.elapsed == 0)
  }

  predicate Timed(w: World) {
    && w.now > 0
    && ClockOk(w.link.ctrl.clock, w.now)
    && (Orphan(w.link.ctrl.clock) ==> w.link.acct.refunds > 0)
    && (AttemptPending(w.link.core) && w.link.ctrl.clock.start == 0 ==> w.link.ctrl.clock.elapsed == 0)
    && (AttemptPending(w.link.core) && w.link.ctrl.state == CtrlStarting && w.link.acct.refunds == 0 ==>
        w.link.ctrl.clock.start > 0)
  }

  predicate Inv(w: World) {
    && Coupled(w.link) && Agreed(w.link) && CancelMarked(w.link) && Conserved(w.link) && Accounted(w.link)
    && TriesBounded(w.link) && Timed(w)
  }

  lemma InitialInv(w: World)
    requires Initial(w)
    ensures Inv(w)
  {
  }

  lemma UpKeeps(w: World, e: Env)
    requires Inv(w) && Enabled(w, Up, e)
    ensures Inv(Next(w, (Up, e)))
  {
  }

  lemma DownKeeps(w: World, e: Env)
    requires Inv(w) && Enabled(w, Down, e)
    ensures Inv(Next(w, (Down, e)))
  {
  }

  /** An async-down while STARTING touches the clocks and the count only, and gives the tries back. */
  lemma RefundKeeps(w: World, force: bool, e: Env)
    requires Inv(w) && Enabled(w, Async(force), e) && w.link.ctrl.state == CtrlStarting
    ensures Inv(Next(w, (Async(force), e)))
  {
  }

  lemma AsyncKeeps(w: World, force: bool, e: Env)
    requires Inv(w) && Enabled(w, Async(force), e) && w.link.ctrl.state != CtrlStarting
    ensures Inv(Next(w, (Async(force), e)))
  {
  }

  lemma SetConfigKeeps(w: World, config: Config, admin: bool, e: Env)
    requires Inv(w) && Enabled(w, SetConfig(config, admin), e)
    ensures Inv(Next(w, (SetConfig(config, admin), e)))
  {
  }

  lemma SuccessKeeps(w: World, e: Env)
    requires Inv(w) && Enabled(w, Success, e)
    ensures Inv(Next(w, (Success, e)))
  {
  }

  /** The core as an attempt that failed leaves it. */
  predicate FailedCore(c: Core, c': Core) {
    && AttemptPending(c) && c'.state == CoreDown && c'.queued == {}
    && c'.autoneg == c.autoneg && c'.downCallback == c.downCallback
    && (c'.cancelTail ==> c.cancelTail || c.state == Canceling)
  }

  /** When a failed attempt is tried again. */
  predicate TriesAgain(c: Ctrl, cause: CauseMap) {
    !c.isCanceled && !OutOfTries(c.clock.attemptCount, c.config.triesMax) && !Fatal(cause)
  }

  lemma RetryKeeps(w: World, core: Core, e: Env)
    requires Inv(w) && w.now <= e.t0 <= e.t1 <= e.t2 && FailedCore(w.link.core, core)
    requires TriesAgain(w.link.ctrl, e.cause) && e.serdesReady
    ensures Inv(World(UpCallback(w.link.(core := core), CoreDown, e).0, e.t2))
  {
  }

  lemma RefusedRetryKeeps(w: World, core: Core, e: Env)
    requires Inv(w) && w.now <= e.t0 <= e.t1 <= e.t2 && FailedCore(w.link.core, core)
    requires TriesAgain(w.link.ctrl, e.cause) && !e.serdesReady
    ensures Inv(World(UpCallback(w.link.(core := core), CoreDown, e).0, e.t2))
  {
  }

  lemma GiveUpKeeps(w: World, core: Core, e: Env)
    requires Inv(w) && w.now <= e.t0 <= e.t1 <= e.t2 && FailedCore(w.link.core, core)
    requires !TriesAgain(w.link.ctrl, e.cause)
    ensures Inv(World(UpCallback(w.link.(core := core), CoreDown, e).0, e.t2))
  {
  }

  lemma FailureKeeps(w: World, core: Core, e: Env)
    requires Inv(w) && w.now <= e.t0 <= e.t1 <= e.t2 && FailedCore(w.link.core, core)
    ensures Inv(World(UpCallback(w.link.(core := core), CoreDown, e).0, e.t2))
  {
    if TriesAgain(w.link.ctrl, e.cause) {
      if e.serdesReady { RetryKeeps(w, core, e); } else { RefusedRetryKeeps(w, core, e); }
    } else {
      GiveUpKeeps(w, core, e);
    }
  }

  /** The second callback of a cancel is ignored unless core is still DOWN. */
  lemma LateTail(l: Link, cause: CauseMap)
    requires Coupled(l) && CancelMarked(l) && l.core.cancelTail && l.core.state != CoreDown
    ensures CancelTail(l, cause) == l.(core := l.core.(cancelTail := false))
  {
  }

  lemma PromptTail(l: Link, cause: CauseMap)
    requires Coupled(l) && CancelMarked(l) && l.core.cancelTail && l.core.state == CoreDown
    ensures var l' := CancelTail(l, cause);
            && l.ctrl.state == l'.ctrl.state == CtrlDown && l'.core == l.core.(cancelTail := false)
            && l'.acct == l.acct.(terminals := l.acct.terminals + 1, tailDone := true)
            && l'.ctrl.clock == l.ctrl.clock && l'.ctrl.config == l.ctrl.config
            && l'.ctrl.isCanceled == l.ctrl.isCanceled
            && exists n: nat, m: nat :: l'.ctrl.counters == l.ctrl.counters.(down := n, upCanceled := m)
  {
  }

  lemma CancelEndsKeeps(w: World, cause: CauseMap, e: Env)
    requires Inv(w) && Enabled(w, CancelEnds(cause), e)
    ensures Inv(Next(w, (CancelEnds(cause), e)))
  {
    if w.link.core.state == CoreDown {
      PromptTail(w.link, cause);
    } else {
      LateTail(w.link, cause);
    }
  }

  lemma DownEnded(l: Link, cause: CauseMap)
    requires Coupled(l) && CancelMarked(l) && l.core.state == GoingDown && DownWork in l.core.queued
    ensures var l' := DownDone(l, cause);
            && l.ctrl.state == CtrlStopping && l'.ctrl.state == CtrlDown
            && l'.core == l.core.(state := CoreDown, queued := {})
            && l'.acct == l.acct.(terminals := l.acct.terminals + 1)
            && l'.ctrl.clock == l.ctrl.clock && l'.ctrl.config == l.ctrl.config
            && l'.ctrl.isCanceled == l.ctrl.isCanceled
            && exists n: nat, m: nat :: l'.ctrl.counters == l.ctrl.counters.(down := n, upCanceled := m)
  {
  }

  lemma DownEndsKeeps(w: World, cause: CauseMap, e: Env)
    requires Inv(w) && Enabled(w, DownEnds(cause), e)
    ensures Inv(Next(w, (DownEnds(cause), e)))
  {
    DownEnded(w.link, cause);
  }

  lemma FaultStartKeeps(w: World, e: Env)
    requires Inv(w) && Enabled(w, Faults, e)
    ensures Inv(Next(w, (Faults, e)))
  {
  }

  lemma FaultEndsKeeps(w: World, e: Env)
    requires Inv(w) && Enabled(w, FaultEnds, e)
    ensures Inv(Next(w, (FaultEnds, e)))
  {
  }

  predicate Command(st: Step) { st.Up? || st.Down? || st.Async? || st.SetConfig? || st.SetPolicy? || st.Wait? }

  lemma CommandKeeps(w: World, st: Step, e: Env)
    requires Inv(w) && Enabled(w, st, e) && Command(st)
    ensures Inv(Next(w, (st, e)))
  {
    match st
    case Up => UpKeeps(w, e);
    case Down => DownKeeps(w, e);
    case Async(force) =>
      if w.link.ctrl.state == CtrlStarting { RefundKeeps(w, force, e); } else { AsyncKeeps(w, force, e); }
    case SetConfig(config, admin) => SetConfigKeeps(w, config, admin, e);
    case _ =>
  }

  /** The steps of the core work that call nothing back. */
  lemma SilentKeeps(w: World, st: Step, e: Env)
    requires Inv(w) && Enabled(w, st, e) && (st.AnDone? || st.UpFails? || st.TimesOut?)
    ensures Inv(Next(w, (st, e)))
  {
  }

  /** Whatever step is taken from a state that keeps the invariant, the next state keeps it. */
  lemma StepKeeps(w: World, st: Step, e: Env)
    requires Inv(w) && Enabled(w, st, e)
    ensures Inv(Next(w, (st, e)))
  {
    if Command(st) {
      CommandKeeps(w, st, e);
    } else {
      var c := w.link.core;
      match st
      case Success => SuccessKeeps(w, e);
      case UpFailEnds => FailureKeeps(w, c.(state := CoreDown, queued := c.queued - {UpFailWork}), e);
      case TimeoutEnds => FailureKeeps(w, c.(state := CoreDown, queued := c.queued - {UpFailWork}), e);
      case CancelReports =>
        FailureKeeps(w, c.(state := CoreDown, queued := c.queued - {UpCancelWork}, cancelTail := true), e);
      case CancelEnds(cause) => CancelEndsKeeps(w, cause, e);
      case DownEnds(cause) => DownEndsKeeps(w, cause, e);
      case Faults => FaultStartKeeps(w, e);
      case FaultEnds => FaultEndsKeeps(w, e);
      case _ => SilentKeeps(w, st, e);
    }
  }

  // ------------------------------------------------------------------ the log

  /** How one step of a session writes to the log and to the session's account. */
  predicate Told(l: Link, l': Link) {
    var a := l.acct;
    || (l'.log == l.log && l'.acct.terminals == a.terminals && l'.acct.ups == a.ups)
    || (l'.log == l.log + [Notified(DownReqNotif)] && l'.acct.terminals == a.terminals && l'.acct.ups == a.ups)
    || (l'.log == l.log + [Notified(LinkUpNotif)] && l'.acct.terminals == a.terminals && l'.acct.ups == a.ups + 1)
    || (&& (|| l'.log == l.log + Ending(UpFailNotif) || l'.log == l.log + Ending(DownNotif)
            || l'.log == l.log + Ending(AsyncDownNotif) || l'.log == l.log + Ending(ErrorNotif))
        && l'.acct.terminals == a.terminals + 1 && l'.acct.ups == a.ups)
  }

  predicate StartsSession(l: Link, st: Step) { st.Up? && l.ctrl.state == CtrlDown }

  lemma FailureTold(l: Link, core: Core, e: Env)
    ensures Told(l, UpCallback(l.(core := core), CoreDown, e).0)
  {
  }

  lemma StepTold(l: Link, st: Step, e: Env)
    requires !StartsSession(l, st)
    ensures Told(l, Effect(l, st, e))
  {
    match st
    case UpFailEnds => FailureTold(l, l.core.(state := CoreDown, queued := l.core.queued - {UpFailWork}), e);
    case TimeoutEnds => FailureTold(l, l.core.(state := CoreDown, queued := l.core.queued - {UpFailWork}), e);
    case CancelReports =>
      FailureTold(l, l.core.(state := CoreDown, queued := l.core.queued - {UpCancelWork}, cancelTail := true), e);
    case _ =>
  }

  /** The ending a step announced, if it did. */
  function EndingOf(l: Link, l': Link): Option<Notif> {
    if |l'.log| == |l.log| + 4 && l'.log[|l.log| + 3].Notified? then Some(l'.log[|l.log| + 3].n) else None
  }

  /** A step that announces an ending leaves the link DOWN with its waiters released, and no other step
      takes a link down. */
  predicate EndsDown(l: Link, l': Link) {
    && (EndingOf(l, l').Some? ==> l'.ctrl.state == CtrlDown && l'.ctrl.downComplete)
    && (l.ctrl.state != CtrlDown && l'.ctrl.state == CtrlDown ==> EndingOf(l, l').Some?)
  }

  lemma FailureEnds(l: Link, core: Core, e: Env)
    ensures EndsDown(l, UpCallback(l.(core := core), CoreDown, e).0)
  {
  }

  lemma StepEnds(l: Link, st: Step, e: Env)
    ensures EndsDown(l, Effect(l, st, e))
  {
    match st
    case UpFailEnds => FailureEnds(l, l.core.(state := CoreDown, queued := l.core.queued - {UpFailWork}), e);
    case TimeoutEnds => FailureEnds(l, l.core.(state := CoreDown, queued := l.core.queued - {UpFailWork}), e);
    case CancelReports =>
      FailureEnds(l, l.core.(state := CoreDown, queued := l.core.queued - {UpCancelWork}, cancelTail := true), e);
    case _ =>
  }
}
