/** A fault interrupt served while a commanded down is on its way (core/hw/sl_core_hw_link.c). The fault
    work takes the link down and ends the session whatever state it found; the down work, if it had passed
    its look at the state, goes on and ends what it finds. The steps of LinkSession go on around this. */
module LinkLateFault {
  import opened Common
  import opened LinkModel
  import opened LinkSession
  import LinkTheorems

  /** The down work of a session that a fault has ended before it: none, still to look at the state, or
      past its look. */
  datatype Late = NoneLate | ToLook | PastLook

  /** The account of `w` leaves out what late down works announce. */
  datatype Ext = Ext(w: World, late: Late)

  datatype Move =
    | Base(st: Step, e: Env) | LateFault(pastLook: bool, e: Env) | LateLook(e: Env) | LateDown(cause: CauseMap, e: Env)

  predicate InTime(w: World, e: Env) { w.now <= e.t0 <= e.t1 <= e.t2 }

  /** The down work is one work item: a late one must be through before the next. */
  predicate Ready(x: Ext, m: Move) {
    var core := x.w.link.core;
    match m
    case Base(st, e) => Enabled(x.w, st, e) && (st.DownEnds? ==> x.late.NoneLate?)
    case LateFault(_, e) => InTime(x.w, e) && x.late.NoneLate? && core.state == GoingDown && DownWork in core.queued
    case LateLook(e) => InTime(x.w, e) && x.late.ToLook?
    case LateDown(_, e) => InTime(x.w, e) && x.late.PastLook?
  }

  function FaultServed(l: Link): Link {
    FaultCallback(l.(core := l.core.(state := CoreDown, queued := l.core.queued - {DownWork})), CoreDown)
  }

  function DownServed(l: Link, cause: CauseMap): Link {
    RunDownCallback(l.(core := l.core.(state := CoreDown)), cause).(acct := l.acct)
  }

  function Moved(x: Ext, m: Move): Ext {
    match m
    case Base(st, e) => x.(w := Next(x.w, (st, e)))
    case LateFault(pastLook, e) =>
      x.(w := World(FaultServed(x.w.link), e.t2), late := if pastLook then PastLook else ToLook)
    case LateLook(e) =>
      // The work goes on only from GOING_DOWN; a down commanded meanwhile has queued the same item.
      var core := x.w.link.core;
      x.(w := x.w.(now := e.t2),
         late := if core.state == GoingDown && DownWork !in core.queued then PastLook else NoneLate)
    case LateDown(cause, e) =>
      x.(w := World(DownServed(x.w.link, cause), e.t2), late := NoneLate)
  }

  predicate Runs(x: Ext, run: seq<Move>)
    decreases |run|
  {
    run == [] || (Ready(x, run[0]) && Runs(Moved(x, run[0]), run[1..]))
  }

  function After(x: Ext, run: seq<Move>): Ext
    decreases |run|
  {
    if run == [] then x else After(Moved(x, run[0]), run[1..])
  }

  predicate Fresh(x: Ext) { Initial(x.w) && x.late.NoneLate? }

  /** Every late down work ends while the link is DOWN. */
  predicate Timely(x: Ext, run: seq<Move>)
    decreases |run|
  {
    run == [] ||
    ((run[0].LateDown? ==> x.w.link.ctrl.state == CtrlDown) && Timely(Moved(x, run[0]), run[1..]))
  }

  predicate Registered(c: Core) { !c.downCallback.NoCallback? && c.state != Unconfigured }

  predicate ExtInv(x: Ext) {
    && Inv(x.w)
    && (!x.late.NoneLate? ==> Registered(x.w.link.core))
  }

  // ------------------------------------------------------------------ what timely runs keep

  lemma FailureRegistered(l: Link, core: Core, e: Env)
    requires Registered(core)
    ensures Registered(UpCallback(l.(core := core), CoreDown, e).0.core)
  {
  }

  lemma CallbackStays(l: Link, st: Step, e: Env)
    requires Registered(l.core)
    ensures Registered(Effect(l, st, e).core)
  {
    match st
    case UpFailEnds => FailureRegistered(l, l.core.(state := CoreDown, queued := l.core.queued - {UpFailWork}), e);
    case TimeoutEnds => FailureRegistered(l, l.core.(state := CoreDown, queued := l.core.queued - {UpFailWork}), e);
    case CancelReports =>
      FailureRegistered(l, l.core.(state := CoreDown, queued := l.core.queued - {UpCancelWork}, cancelTail := true), e);
    case _ =>
  }

  lemma BaseKeeps(x: Ext, st: Step, e: Env)
    requires ExtInv(x) && Ready(x, Base(st, e))
    ensures ExtInv(Moved(x, Base(st, e)))
  {
    StepKeeps(x.w, st, e);
    if !x.late.NoneLate? {
      CallbackStays(x.w.link, st, e);
    }
  }

  lemma LateFaultKeeps(x: Ext, pastLook: bool, e: Env)
    requires ExtInv(x) && Ready(x, LateFault(pastLook, e))
    ensures ExtInv(Moved(x, LateFault(pastLook, e)))
  {
  }

  lemma LateLookKeeps(x: Ext, e: Env)
    requires ExtInv(x) && Ready(x, LateLook(e))
    ensures ExtInv(Moved(x, LateLook(e)))
  {
    StepKeeps(x.w, Wait, e);
  }

  lemma DownServedAlready(l: Link, cause: CauseMap)
    requires l.ctrl.state == CtrlDown && !l.core.downCallback.NoCallback?
    ensures var l' := DownServed(l, cause);
      && l'.ctrl.state == CtrlDown && l'.core == l.core.(state := CoreDown) && l'.acct == l.acct
      && l'.ctrl.clock == l.ctrl.clock && l'.ctrl.config == l.ctrl.config && l'.ctrl.isCanceled == l.ctrl.isCanceled
      && exists n: nat, m: nat :: l'.ctrl.counters == l.ctrl.counters.(down := n, upCanceled := m)
  {
  }

  lemma LateDownKeeps(x: Ext, cause: CauseMap, e: Env)
    requires ExtInv(x) && Ready(x, LateDown(cause, e)) && x.w.link.ctrl.state == CtrlDown
    ensures ExtInv(Moved(x, LateDown(cause, e)))
  {
    DownServedAlready(x.w.link, cause);
  }

  lemma MoveKeeps(x: Ext, m: Move)
    requires ExtInv(x) && Ready(x, m) && (m.LateDown? ==> x.w.link.ctrl.state == CtrlDown)
    ensures ExtInv(Moved(x, m))
  {
    match m
    case Base(st, e) => BaseKeeps(x, st, e);
    case LateFault(pastLook, e) => LateFaultKeeps(x, pastLook, e);
    case LateLook(e) => LateLookKeeps(x, e);
    case LateDown(cause, e) => LateDownKeeps(x, cause, e);
  }

  lemma {:induction false} RunKeeps(x: Ext, run: seq<Move>)
    requires ExtInv(x) && Runs(x, run) && Timely(x, run)
    ensures ExtInv(After(x, run))
    decreases |run|
  {
    if run != [] {
      MoveKeeps(x, run[0]);
      RunKeeps(Moved(x, run[0]), run[1..]);
    }
  }

  /** However many faults are served during commanded downs, the layers stay coupled, attempts and tries
      balance and the clocks are in order, as long as late down works end while the link is DOWN. */
  lemma LateFaultsKeep(x: Ext, run: seq<Move>)
    requires Fresh(x) && Runs(x, run) && Timely(x, run)
    ensures Inv(After(x, run).w)
  {
    InitialInv(x.w);
    RunKeeps(x, run);
  }

  // ------------------------------------------------------------------ one late down work

  /** A late down work announces an ending whatever it finds, and leaves the link DOWN. It leaves the layers
      coupled exactly when it found no core work queued, and loses an attempt exactly when it found one
      pending; neither can be when it found the link DOWN. */
  lemma LateDownExact(x: Ext, run: seq<Move>, cause: CauseMap, e: Env)
    requires Fresh(x) && Runs(x, run) && Timely(x, run) && Ready(After(x, run), LateDown(cause, e))
    ensures var l := After(x, run).w.link; var l' := Moved(After(x, run), LateDown(cause, e)).w.link;
      && EndingOf(l, l').Some? && l'.ctrl.state == CtrlDown && l'.core.state == CoreDown
      && (Coupled(l') <==> l.core.queued == {})
      && (Conserved(l') <==> !AttemptPending(l.core))
      && (l.ctrl.state == CtrlDown ==> l.core.queued == {} && !AttemptPending(l.core))
  {
    InitialInv(x.w);
    RunKeeps(x, run);
  }

  /** A late down work that has still to look at the state goes on exactly when core is on its way down again
      for another reason: a fault, or an attempt of the next session that was reported to fail. */
  lemma LateLookExact(x: Ext, run: seq<Move>, e: Env)
    requires Fresh(x) && Runs(x, run) && Timely(x, run) && Ready(After(x, run), LateLook(e))
    ensures var u := After(x, run); var u' := Moved(u, LateLook(e));
      && (u'.late.PastLook? <==> FaultWork in u.w.link.core.queued || UpFailWork in u.w.link.core.queued)
      && (u'.late.PastLook? || u'.late.NoneLate?) && u'.w.link == u.w.link
  {
    InitialInv(x.w);
    RunKeeps(x, run);
  }

  // ------------------------------------------------------------------ callers that wait

  predicate Starts(x: Ext, m: Move) { m.Base? && StartsSession(x.w.link, m.st) }

  /** No link-up finds the link DOWN while a down work is late. */
  predicate Waits(x: Ext, run: seq<Move>)
    decreases |run|
  {
    run == [] || ((Starts(x, run[0]) ==> x.late.NoneLate?) && Waits(Moved(x, run[0]), run[1..]))
  }

  lemma StaysDown(x: Ext, m: Move)
    requires ExtInv(x) && Ready(x, m) && x.w.link.ctrl.state == CtrlDown && !Starts(x, m)
    ensures Moved(x, m).w.link.ctrl.state == CtrlDown
  {
    if m.Base? {
      LinkTheorems.SessionStep(x.w, m.st, m.e);
    }
  }

  lemma {:induction false} WaitingIsTimely(x: Ext, run: seq<Move>)
    requires ExtInv(x) && Runs(x, run) && Waits(x, run)
    requires !x.late.NoneLate? ==> x.w.link.ctrl.state == CtrlDown
    ensures Timely(x, run)
    decreases |run|
  {
    if run != [] {
      if !x.late.NoneLate? {
        StaysDown(x, run[0]);
      }
      MoveKeeps(x, run[0]);
      WaitingIsTimely(Moved(x, run[0]), run[1..]);
    }
  }

  /** Callers that make no link-up while a down work is late have every late down work end with the link
      DOWN, and so lose nothing. */
  lemma WaitingCallers(x: Ext, run: seq<Move>)
    requires Fresh(x) && Runs(x, run) && Waits(x, run)
    ensures Timely(x, run) && Inv(After(x, run).w)
  {
    InitialInv(x.w);
    WaitingIsTimely(x, run);
    RunKeeps(x, run);
  }

  // ------------------------------------------------------------------ what a session tells its clients

  predicate OneSession(x: Ext, run: seq<Move>)
    decreases |run|
  {
    run == [] || (!Starts(x, run[0]) && OneSession(Moved(x, run[0]), run[1..]))
  }

  function Strike(x: Ext, m: Move): nat { if m.Base? then LinkTheorems.Strike(x.w, m.st) else 0 }

  /** How often the second callback of a cancel found the core still DOWN. */
  function Strikes(x: Ext, run: seq<Move>): nat
    decreases |run|
  {
    if run == [] then 0 else Strike(x, run[0]) + Strikes(Moved(x, run[0]), run[1..])
  }

  /** How many late down works went on to their end. */
  function LateDowns(run: seq<Move>): nat {
    if run == [] then 0 else LinkTheorems.Bit(run[0].LateDown?) + LateDowns(run[1..])
  }

  predicate Tallies(x: Ext, x': Ext, strikes: nat, lateDowns: nat) {
    var l, l' := x.w.link, x'.w.link;
    && LinkTheorems.Endings(l'.log) - LinkTheorems.Endings(l.log) == l'.acct.terminals - l.acct.terminals + lateDowns
    && LinkTheorems.LinkUps(l'.log) - LinkTheorems.LinkUps(l.log) == l'.acct.ups - l.acct.ups
    && LinkTheorems.Bit(l'.acct.tailDone) - LinkTheorems.Bit(l.acct.tailDone) == strikes
    && l'.acct.active == l.acct.active
  }

  lemma MoveTallies(x: Ext, m: Move)
    requires ExtInv(x) && Ready(x, m) && !Starts(x, m)
    ensures Tallies(x, Moved(x, m), Strike(x, m), LinkTheorems.Bit(m.LateDown?))
  {
    var l := x.w.link;
    match m
    case Base(st, e) =>
      StepTold(l, st, e);
      LinkTheorems.ToldTally(l, Effect(l, st, e));
      LinkTheorems.StepAccount(x.w, st, e);
    case LateFault(_, _) =>
      LinkTheorems.EndingMore(l.log, AsyncDownNotif);
    case LateLook(_) =>
    case LateDown(cause, _) =>
      LinkTheorems.EndingMore(l.log, DownNotif);
      LinkTheorems.EndingMore(l.log, AsyncDownNotif);
  }

  lemma {:induction false} RunTallies(x: Ext, run: seq<Move>)
    requires ExtInv(x) && Runs(x, run) && Timely(x, run) && OneSession(x, run)
    ensures ExtInv(After(x, run)) && Tallies(x, After(x, run), Strikes(x, run), LateDowns(run))
    ensures x.w.link.ctrl.state == CtrlDown ==> After(x, run).w.link.ctrl.state == CtrlDown
    ensures After(x, run).w.link.ctrl.state != CtrlDown ==> LateDowns(run) == 0
    decreases |run|
  {
    if run != [] {
      MoveTallies(x, run[0]);
      MoveKeeps(x, run[0]);
      if x.w.link.ctrl.state == CtrlDown {
        StaysDown(x, run[0]);
      }
      RunTallies(Moved(x, run[0]), run[1..]);
    }
  }

  /** With faults served late a session announces at most one LINK_UP and no ending before it is over, and
      over, one ending, one more if the second callback of a cancel found the core still DOWN, and one more
      for every late down work. */
  lemma LateSessionEndings(x0: Ext, before: seq<Move>, e: Env, run: seq<Move>)
    requires Fresh(x0) && Runs(x0, before) && Timely(x0, before)
    requires Enabled(After(x0, before).w, Up, e) && LinkUp(After(x0, before).w.link, e).1 == Ok
    requires var x := Moved(After(x0, before), Base(Up, e)); Runs(x, run) && Timely(x, run) && OneSession(x, run)
    ensures var x := Moved(After(x0, before), Base(Up, e)); var u := After(x, run);
            var endings := LinkTheorems.Endings(u.w.link.log) - LinkTheorems.Endings(x.w.link.log);
            && 0 <= LinkTheorems.LinkUps(u.w.link.log) - LinkTheorems.LinkUps(x.w.link.log) <= 1
            && (u.w.link.ctrl.state != CtrlDown ==> endings == 0)
            && (u.w.link.ctrl.state == CtrlDown ==> endings == 1 + Strikes(x, run) + LateDowns(run))
            && Strikes(x, run) <= 1
  {
    InitialInv(x0.w);
    RunKeeps(x0, before);
    MoveKeeps(After(x0, before), Base(Up, e));
    var x := Moved(After(x0, before), Base(Up, e));
    assert x.w.link.acct.terminals == 0 && x.w.link.acct.active && x.w.link.acct.ups == 0 && !x.w.link.acct.tailDone;
    RunTallies(x, run);
    LinkTheorems.CoupledStates(After(x, run).w.link);
  }

  // ------------------------------------------------------------------ it happens

  predicate Still(x: Ext, e: Env) { x.w.now == e.t0 == e.t1 == e.t2 && e.serdesReady }

  lemma More(x: Ext, run: seq<Move>, m: Move)
    requires Runs(x, run) && Ready(After(x, run), m)
    ensures Runs(x, run + [m]) && After(x, run + [m]) == Moved(After(x, run), m)
    ensures LateDowns(run + [m]) == LateDowns(run) + LinkTheorems.Bit(m.LateDown?)
    decreases |run|
  {
    if run == [] {
      assert [] + [m] == [m] && [m][1..] == [];
    } else {
      assert (run + [m])[0] == run[0] && (run + [m])[1..] == run[1..] + [m];
      More(Moved(x, run[0]), run[1..], m);
    }
  }

  /** The link is up and nothing else is going on. */
  predicate JustUp(x: Ext) {
    && x.w.link.ctrl.state == CtrlUp && x.w.link.core.state == CoreUp && x.w.link.core.queued == {}
    && x.late.NoneLate? && x.w.link.log == [Notified(LinkUpNotif)] && Conserved(x.w.link)
  }

  lemma Started(x: Ext, config: Config, e: Env) returns (run: seq<Move>)
    requires Fresh(x) && Still(x, e) && !config.autoneg && (config.settleMs == 0) == (config.checkMs == 0)
    ensures Runs(x, run) && LateDowns(run) == 0
    ensures var u := After(x, run);
      && Still(u, e) && u.late.NoneLate? && u.w.link.log == []
      && u.w.link.ctrl.state == CtrlStarting && u.w.link.core.state == GoingUp && u.w.link.core.queued == {}
      && Conserved(u.w.link)
  {
    var m0, m1 := Base(SetConfig(config, true), e), Base(Up, e);
    run := [];
    More(x, run, m0);
    run := run + [m0];
    assert After(x, run).w.link.core.state == Configured && !After(x, run).w.link.core.autoneg;
    More(x, run, m1);
    run := run + [m1];
  }

  lemma GoesUp(x: Ext, config: Config, e: Env) returns (run: seq<Move>)
    requires Fresh(x) && Still(x, e) && !config.autoneg && (config.settleMs == 0) == (config.checkMs == 0)
    ensures Runs(x, run) && LateDowns(run) == 0 && JustUp(After(x, run)) && Still(After(x, run), e)
  {
    run := Started(x, config, e);
    More(x, run, Base(Success, e));
    run := run + [Base(Success, e)];
  }

  /** Commanded down, then taken down by the fault with the down work past its look. */
  predicate FaultFirst(x: Ext) {
    && x.w.link.ctrl.state == CtrlDown && x.w.link.core.state == CoreDown && x.w.link.core.queued == {}
    && x.late.PastLook? && x.w.link.core.downCallback == OnDown && Conserved(x.w.link)
    && x.w.link.log == [Notified(LinkUpNotif)] + Ending(AsyncDownNotif)
  }

  lemma DownThenFault(x: Ext, e: Env) returns (run: seq<Move>)
    requires JustUp(x) && Still(x, e)
    ensures Runs(x, run) && LateDowns(run) == 0 && FaultFirst(After(x, run)) && Still(After(x, run), e)
  {
    run := [];
    More(x, run, Base(Down, e));
    run := run + [Base(Down, e)];
    More(x, run, LateFault(true, e));
    run := run + [LateFault(true, e)];
  }

  lemma {:induction false} Joined(x: Ext, a: seq<Move>, b: seq<Move>)
    requires Runs(x, a) && Runs(After(x, a), b)
    ensures Runs(x, a + b) && After(x, a + b) == After(After(x, a), b)
    ensures LateDowns(a + b) == LateDowns(a) + LateDowns(b)
    decreases |a|
  {
    if a == [] {
      assert a + b == b;
    } else {
      assert (a + b)[0] == a[0] && (a + b)[1..] == a[1..] + b;
      Joined(Moved(x, a[0]), a[1..], b);
    }
  }

  /** A session that announces ASYNC_DOWN and then DOWN. */
  lemma FaultAndDownTold(x: Ext, config: Config, e: Env) returns (run: seq<Move>)
    requires Fresh(x) && Still(x, e) && !config.autoneg && (config.settleMs == 0) == (config.checkMs == 0)
    ensures Runs(x, run) && After(x, run).w.link.ctrl.state == CtrlDown && LateDowns(run) == 1
    ensures After(x, run).w.link.log == [Notified(LinkUpNotif)] + Ending(AsyncDownNotif) + Ending(DownNotif)
  {
    var a := GoesUp(x, config, e);
    var u := After(x, a);
    var b := DownThenFault(u, e);
    Joined(x, a, b);
    More(x, a + b, LateDown({}, e));
    run := a + b + [LateDown({}, e)];
  }

  lemma LinkUpBetween(x: Ext, e: Env)
    requires FaultFirst(x) && Still(x, e)
    ensures var m := Base(Up, e); var v := Moved(x, m);
      && Ready(x, m) && v.late.PastLook? && Still(v, e)
      && AttemptPending(v.w.link.core) && Conserved(v.w.link) && v.w.link.core.downCallback == OnDown
  {
  }

  /** A link-up made between the two is lost: the link is DOWN, its attempt neither up nor failed. */
  lemma AttemptLost(x: Ext, config: Config, e: Env) returns (run: seq<Move>)
    requires Fresh(x) && Still(x, e) && !config.autoneg && (config.settleMs == 0) == (config.checkMs == 0)
    ensures Runs(x, run) && After(x, run).w.link.ctrl.state == CtrlDown && !Conserved(After(x, run).w.link)
  {
    var a := GoesUp(x, config, e);
    var u := After(x, a);
    var b := DownThenFault(u, e);
    Joined(x, a, b);
    run := a + b;
    LinkUpBetween(After(x, run), e);
    More(x, run, Base(Up, e));
    run := run + [Base(Up, e)];
    More(x, run, LateDown({}, e));
    run := run + [LateDown({}, e)];
  }
}
