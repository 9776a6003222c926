/** The two layers of a link as values: what each command and each callback of the control
    layer (ctrl/sl_ctrl_link.c, ctrl/sl_ctrl_link_priv.c) and of the core layer
    (core/sl_core_link.c) does to the state it finds. */
module LinkModel {

  import opened Common

  /** A 64-bit cause map as the set of its bit numbers. */
  type CauseMap = set<nat>

  const INFINITE_UP_TRIES: U32 := 0xFFFF_FFFF

  /** Result codes; the names are the kernel's. */
  datatype Rtn = Ok | EBADRQC | EINPROGRESS | EALREADY | EIO | EINVAL

  // ------------------------------------------------------------------ core layer

  datatype CoreState =
    | CoreInvalid | Unconfigured | Configuring | Configured | CoreDown | CoreAn
    | GoingUp | CoreUp | Canceling | GoingDown | Timeout

  /** Work items that end in a callback to the control layer. */
  datatype Work = UpFailWork | UpCancelWork | DownWork | FaultWork

  /** The callback registered by the last accepted cancel or down. */
  datatype DownCallback = NoCallback | OnDown | OnAsyncDown

  /** `cancelTail` holds between the two callbacks of the cancel work, which reports the failed
      attempt through the up callback first and then calls the down callback. */
  datatype Core = Core(
    state: CoreState,
    autoneg: bool,
    downCallback: DownCallback,
    queued: set<Work>,
    cancelTail: bool)

  function CoreLinkUp(c: Core, serdesReady: bool): (Core, Rtn) {
    if !serdesReady then (c, EIO)
    else match c.state
      case GoingUp => (c, Ok)
      case CoreAn => (c, Ok)
      case CoreUp => (c, Ok)
      case Configured => (c.(state := if c.autoneg then CoreAn else GoingUp), Ok)
      case CoreDown => (c.(state := if c.autoneg then CoreAn else GoingUp), Ok)
      case _ => (c, EBADRQC)
  }

  function CoreLinkUpFail(c: Core): (Core, Rtn) {
    match c.state
    case Canceling => (c, Ok)
    case GoingDown => (c, Ok)
    case Timeout => (c, Ok)
    case GoingUp => (c.(state := GoingDown, queued := c.queued + {UpFailWork}), Ok)
    case CoreAn => (c.(state := GoingDown, queued := c.queued + {UpFailWork}), Ok)
    case _ => (c, EBADRQC)
  }

  function CoreLinkCancel(c: Core, callback: DownCallback): (Core, Rtn) {
    if callback.NoCallback? then (c, EINVAL)
    else match c.state
      case Canceling => (c, Ok)
      case GoingDown => (c, Ok)
      case Timeout => (c, Ok)
      case GoingUp =>
        (c.(state := Canceling, downCallback := callback, queued := c.queued + {UpCancelWork}), Ok)
      case CoreAn =>
        (c.(state := Canceling, downCallback := callback, queued := c.queued + {UpCancelWork}), Ok)
      case _ => (c, EBADRQC)
  }

  function CoreLinkDown(c: Core, callback: DownCallback): (Core, Rtn) {
    if callback.NoCallback? then (c, EINVAL)
    else match c.state
      case Canceling => (c, Ok)
      case GoingDown => (c, Ok)
      case Timeout => (c, Ok)
      case CoreUp =>
        (c.(state := GoingDown, downCallback := callback, queued := c.queued + {DownWork}), Ok)
      case _ => (c, EBADRQC)
  }

  /** The state passes through CONFIGURING and ends CONFIGURED. */
  function CoreLinkConfigSet(c: Core, autoneg: bool): (Core, Rtn) {
    match c.state
    case Unconfigured => (c.(state := Configured, autoneg := autoneg), Ok)
    case Configured => (c.(state := Configured, autoneg := autoneg), Ok)
    case CoreDown => (c.(state := Configured, autoneg := autoneg), Ok)
    case _ => (c, EBADRQC)
  }

  // ------------------------------------------------------------------ up clock

  /** Times are nanoseconds of the kernel's monotonic clock; zero marks a clock that is not running. */
  datatype Clock = Clock(
    start: int, elapsed: int, attemptCount: U32, attemptStart: int, attemptElapsed: int, up: int)

  const CLOCK_ZERO := Clock(0, 0, 0, 0, 0, 0)

  function ClockStart(c: Clock, t: int): Clock {
    c.(start := t, elapsed := 0, attemptCount := 0)
  }

  function ClockStop(c: Clock, t: int, t': int): Clock {
    c.(elapsed := t - c.start, start := 0, up := t')
  }

  function AttemptStart(c: Clock, t: int): Clock {
    c.(attemptStart := t, attemptElapsed := 0, attemptCount := (c.attemptCount + 1) % 0x1_0000_0000)
  }

  function AttemptStop(c: Clock, t: int): Clock {
    c.(attemptElapsed := t - c.attemptStart, attemptStart := 0)
  }

  /** Truncating division by 10^6, as ktime_to_ms does. */
  function ToMs(t: int): int {
    if t >= 0 then t / 1_000_000 else -((-t) / 1_000_000)
  }

  /** The attempt and total times reported at time `t`, in milliseconds. */
  function ReportedAttempt(c: Clock, t: int): int {
    if c.attemptStart == 0 then ToMs(c.attemptElapsed) else ToMs(t - c.attemptStart)
  }

  function ReportedTotal(c: Clock, t: int): int {
    if c.start == 0 then ToMs(c.elapsed) else ToMs(t - c.start)
  }

  // ------------------------------------------------------------------ control layer

  datatype CtrlState =
    | CtrlInvalid | CtrlDown | CtrlAn | CtrlStarting | CtrlUp | CtrlUpDownReq | CtrlStopping

  datatype Config = Config(triesMax: U32, autoneg: bool, lock: bool, settleMs: int, checkMs: int)

  datatype Policy = Policy(downReq: bool, lock: bool)

  datatype Counters = Counters(
    upCmd: nat, upRetry: nat, up: nat, upFail: nat, downCmd: nat, down: nat,
    upCancelCmd: nat, upCanceled: nat, faultAsync: nat)

  datatype Ctrl = Ctrl(
    state: CtrlState, isCanceled: bool, config: Config, policy: Policy,
    clock: Clock, counters: Counters, upFailCause: CauseMap, downComplete: bool)

  datatype Notif = LinkUpNotif | UpFailNotif | DownNotif | AsyncDownNotif | ErrorNotif | DownReqNotif

  /** The notifications that end a session. */
  predicate Terminal(n: Notif) {
    n.UpFailNotif? || n.DownNotif? || n.AsyncDownNotif? || n.ErrorNotif?
  }

  /** What a client can see happen, in order: the wait for the notification work to finish, the state
      becoming DOWN, waiters on the down completion being released, a notification being enqueued. */
  datatype Event = Flushed | StateDown | Completed | Notified(n: Notif)

  /** Bookkeeping of the current session that no code reads: `active` says an attempt was accepted by
      core, `limit` is max(1, tries) when it started, `calls` counts calls of the core link-up,
      `refunds` counts async-downs raised while STARTING, `refused` (over all sessions) counts
      attempts core refused, `tailDone` says the second callback of a cancel came after the ending. */
  datatype Account = Account(
    active: bool, limit: nat, calls: nat, refunds: nat, ups: nat, terminals: nat,
    tailDone: bool, refused: nat)

  datatype Link = Link(ctrl: Ctrl, core: Core, log: seq<Event>, acct: Account)

  /** What core passes to the up callback that matters here, with the clock readings taken on the way
      and whether serdes is ready should the callback retry. */
  datatype Env = Env(t0: int, t1: int, t2: int, serdesReady: bool, cause: CauseMap)

  /** Bit numbers of the cause maps. */
  const UCW: nat               := 1
  const UP_TRIES: nat          := 5
  const AUTONEG_NOMATCH: nat   := 6
  const CONFIG: nat            := 8
  const INTR_ENABLE: nat       := 9
  const CANCELED: nat          := 11
  const UNSUPPORTED_CABLE: nat := 12
  const DOWNSHIFT: nat         := 14
  const UPSHIFT: nat           := 16
  const NO_MEDIA: nat          := 23
  const MEDIA_HOT: nat         := 25
  const MEDIA_WARM: nat        := 26
  const SS200_CABLE: nat       := 31
  const RETRYABLE: nat         := 61
  const ORIGIN_LINK_UP: nat    := 63

  const UP_TRIES_MAP: CauseMap := {UP_TRIES, ORIGIN_LINK_UP, RETRYABLE}

  const FATAL_MASK: CauseMap := {
    AUTONEG_NOMATCH, CONFIG, DOWNSHIFT, INTR_ENABLE, UNSUPPORTED_CABLE, SS200_CABLE, UCW,
    MEDIA_HOT, MEDIA_WARM, NO_MEDIA, UPSHIFT}

  predicate Fatal(cause: CauseMap) { !(cause !! FATAL_MASK) }

  predicate OutOfTries(count: U32, triesMax: U32) {
    count >= triesMax && triesMax != INFINITE_UP_TRIES
  }

  function Ending(n: Notif): seq<Event> { [Flushed, StateDown, Completed, Notified(n)] }

  /** The exit every ending of a session shares: wait for the notification work, set the state DOWN,
      release the waiters, then enqueue the ending's own notification. */
  function Finish(l: Link, n: Notif): Link {
    l.(ctrl := l.ctrl.(state := CtrlDown, downComplete := true),
       log := l.log + Ending(n),
       acct := l.acct.(terminals := l.acct.terminals + 1))
  }

  /** A failed attempt that is not retried: the clocks are reset first. */
  function GiveUp(l: Link, n: Notif): Link {
    Finish(l.(ctrl := l.ctrl.(clock := CLOCK_ZERO)), n)
  }

  function Retry(l: Link, e: Env): (Link, Rtn) {
    var c := l.ctrl;
    var (core, rtn) := CoreLinkUp(l.core, e.serdesReady);
    var l1 := l.(
      ctrl := c.(counters := c.counters.(upRetry := c.counters.upRetry + 1),
                 clock := AttemptStart(c.clock, e.t1)),
      core := core,
      acct := l.acct.(calls := l.acct.calls + 1));
    if rtn.Ok? then (l1, Ok)
    else (GiveUp(l1.(acct := l1.acct.(refused := l1.acct.refused + 1)), ErrorNotif), rtn)
  }

  /** What the up callback does with a failed attempt once the causes are noted and the attempt
      clock is stopped. */
  function AttemptDown(l: Link, e: Env): (Link, Rtn) {
    var c := l.ctrl.(counters := l.ctrl.counters.(upFail := l.ctrl.counters.upFail + 1));
    var l1 := l.(ctrl := c);
    if c.isCanceled then
      (GiveUp(l1, UpFailNotif), Ok)
    else if OutOfTries(c.clock.attemptCount, c.config.triesMax) then
      (GiveUp(l.(ctrl := c.(upFailCause := c.upFailCause + UP_TRIES_MAP)), UpFailNotif), Ok)
    else if Fatal(c.upFailCause) then
      (GiveUp(l1, UpFailNotif), Ok)
    else
      Retry(l1, e)
  }

  function UpCallback(l: Link, state: CoreState, e: Env): (Link, Rtn) {
    var c := l.ctrl.(upFailCause := e.cause, clock := AttemptStop(l.ctrl.clock, e.t0));
    match state
    case CoreUp =>
      (l.(ctrl := c.(counters := c.counters.(up := c.counters.up + 1),
                     clock := ClockStop(c.clock, e.t1, e.t2),
                     state := CtrlUp),
          log := l.log + [Notified(LinkUpNotif)],
          acct := l.acct.(ups := l.acct.ups + 1)), Ok)
    case CoreDown => AttemptDown(l.(ctrl := c), e)
    case _ => (GiveUp(l.(ctrl := c), ErrorNotif), EBADRQC)
  }

  /** The down callback (`n` is DownNotif) and the async-down callback (AsyncDownNotif). */
  function DownCallbackFor(l: Link, state: CoreState, cause: CauseMap, n: Notif): (Link, Rtn) {
    match state
    case CoreDown =>
      var c := l.ctrl.counters.(down := l.ctrl.counters.down + 1);
      var c' := if n.DownNotif? && CANCELED in cause then c.(upCanceled := c.upCanceled + 1) else c;
      (Finish(l.(ctrl := l.ctrl.(counters := c')), n), Ok)
    case _ => (l, EBADRQC)
  }

  function FaultStartCallback(l: Link): Link {
    l.(ctrl := l.ctrl.(state := CtrlStopping))
  }

  function FaultCallback(l: Link, state: CoreState): Link {
    var c := l.ctrl.counters.(faultAsync := l.ctrl.counters.faultAsync + 1);
    var l1 := l.(ctrl := l.ctrl.(clock := CLOCK_ZERO, counters := c));
    match state
    case CoreDown =>
      Finish(l1.(ctrl := l1.ctrl.(counters := c.(down := c.down + 1))), AsyncDownNotif)
    case _ => Finish(l1, ErrorNotif)
  }

  function Max1(n: nat): nat { if n == 0 then 1 else n }

  function UpRefused(l: Link): Link {
    l.(ctrl := l.ctrl.(clock := CLOCK_ZERO, state := CtrlDown),
       acct := l.acct.(active := false, refused := l.acct.refused + 1))
  }

  function LinkUpCmd(l: Link, e: Env): (Link, Rtn) {
    var c := l.ctrl.(
      counters := l.ctrl.counters.(upCmd := l.ctrl.counters.upCmd + 1),
      isCanceled := false,
      downComplete := false,
      clock := AttemptStart(ClockStart(l.ctrl.clock, e.t0), e.t1));
    var acct := Account(true, Max1(c.config.triesMax), 1, 0, 0, 0, false, l.acct.refused);
    var (core, rtn) := CoreLinkUp(l.core, e.serdesReady);
    if rtn.Ok? then (l.(ctrl := c, core := core, acct := acct), Ok)
    else (UpRefused(l.(ctrl := c, acct := acct)), rtn)
  }

  function LinkUp(l: Link, e: Env): (Link, Rtn) {
    match l.ctrl.state
    case CtrlDown => LinkUpCmd(l.(ctrl := l.ctrl.(state := CtrlStarting)), e)
    case CtrlStarting => (l, EINPROGRESS)
    case CtrlUp => (l, EALREADY)
    case CtrlUpDownReq => (l, EALREADY)
    case _ => (l, EBADRQC)
  }

  function LinkDownCmd(l: Link): (Link, Rtn) {
    var c := l.ctrl;
    var (core, rtn) := CoreLinkDown(l.core, OnDown);
    (l.(ctrl := c.(state := CtrlStopping, clock := CLOCK_ZERO,
                   counters := c.counters.(downCmd := c.counters.downCmd + 1)),
        core := core), rtn)
  }

  function LinkDown(l: Link): (Link, Rtn) {
    var c := l.ctrl;
    match c.state
    case CtrlStarting =>
      var (core, rtn) := CoreLinkCancel(l.core, OnDown);
      (l.(ctrl := c.(state := CtrlStopping, isCanceled := true,
                     counters := c.counters.(upCancelCmd := c.counters.upCancelCmd + 1)),
          core := core), rtn)
    case CtrlUp => LinkDownCmd(l)
    case CtrlUpDownReq => LinkDownCmd(l)
    case CtrlDown => (l, EALREADY)
    case CtrlStopping => (l, EINPROGRESS)
    case _ => (l, EBADRQC)
  }

  /** The clocks are reset, and with them the attempt count, before the state is looked at. */
  function AsyncDown(l: Link, force: bool): (Link, Rtn) {
    var c := l.ctrl.(clock := CLOCK_ZERO);
    match c.state
    case CtrlUpDownReq => (l.(ctrl := c), Ok)
    case CtrlUp =>
      if !force && c.policy.downReq then
        (l.(ctrl := c.(state := CtrlUpDownReq), log := l.log + [Notified(DownReqNotif)]), Ok)
      else
        var (core, rtn) := CoreLinkDown(l.core, OnAsyncDown);
        (l.(ctrl := c.(state := CtrlStopping), core := core), rtn)
    case CtrlDown => (l.(ctrl := c), Ok)
    case CtrlStopping => (l.(ctrl := c), Ok)
    case CtrlStarting =>
      (l.(ctrl := c, acct := l.acct.(refunds := l.acct.refunds + 1)), EBADRQC)
    case _ => (l.(ctrl := c), EBADRQC)
  }

  function LinkConfigSet(l: Link, config: Config, admin: bool): (Link, Rtn) {
    match l.ctrl.state
    case CtrlDown =>
      if !admin && l.ctrl.config.lock then (l, Ok)
      else if (config.settleMs == 0) != (config.checkMs == 0) then (l, EINVAL)
      else
        var (core, rtn) := CoreLinkConfigSet(l.core, config.autoneg);
        if rtn.Ok? then (l.(ctrl := l.ctrl.(config := config), core := core), Ok)
        else (l, rtn)
    case _ => (l, EBADRQC)
  }

  function LinkPolicySet(l: Link, policy: Policy, admin: bool): Link {
    if !admin && l.ctrl.policy.lock then l
    else l.(ctrl := l.ctrl.(policy := policy))
  }

  // ------------------------------------------------------------------ completions of the core work

  function UpSuccess(l: Link, e: Env): Link {
    UpCallback(l.(core := l.core.(state := CoreUp)), CoreUp, e).0
  }

  /** The end of the up-fail work and of the timeout work. */
  function AttemptFailed(l: Link, e: Env): Link {
    UpCallback(l.(core := l.core.(state := CoreDown, queued := l.core.queued - {UpFailWork})), CoreDown, e).0
  }

  /** The cancel work up to and including its first callback. */
  function CancelReported(l: Link, e: Env): Link {
    var core := l.core.(state := CoreDown, queued := l.core.queued - {UpCancelWork}, cancelTail := true);
    UpCallback(l.(core := core), CoreDown, e).0
  }

  function RunDownCallback(l: Link, cause: CauseMap): Link {
    match l.core.downCallback
    case NoCallback => l
    case OnDown => DownCallbackFor(l, l.core.state, cause, DownNotif).0
    case OnAsyncDown => DownCallbackFor(l, l.core.state, cause, AsyncDownNotif).0
  }

  /** The second callback of the cancel work: it hands over the core state as it is by then. */
  function CancelTail(l: Link, cause: CauseMap): Link {
    var core := l.core.(cancelTail := false);
    var l1 := RunDownCallback(l.(core := core), cause);
    l1.(acct := l1.acct.(tailDone := l1.acct.tailDone || core.state == CoreDown))
  }

  function DownDone(l: Link, cause: CauseMap): Link {
    RunDownCallback(l.(core := l.core.(state := CoreDown, queued := l.core.queued - {DownWork})), cause)
  }

  function FaultStart(l: Link): Link {
    FaultStartCallback(l.(core := l.core.(state := GoingDown, queued := l.core.queued + {FaultWork})))
  }

  function FaultDone(l: Link): Link {
    FaultCallback(l.(core := l.core.(state := CoreDown, queued := l.core.queued - {FaultWork})), CoreDown)
  }
}
