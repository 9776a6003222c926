/** The commands in their two parts: under the lock of the control layer the state becomes STARTING or
    STOPPING, and only then, with the lock given back, core is called. Between the two any thread can do
    anything, other commands included. */
module LinkCommands {
  import opened Common
  import opened LinkModel
  import opened LinkSession
  import LinkTheorems

  // ------------------------------------------------------------------ the two parts

  /** What the second part will be: a link-up, the cancel of an attempt, the down of a link that is up, or
      the same for an async-down. */
  datatype Kind = UpCall | CancelCall | DownCall | AsyncCall

  /** The second part a command has when it finds the link in this state, if it has one. */
  function Claim(l: Link, st: Step): Option<Kind> {
    match st
    case Up => if l.ctrl.state == CtrlDown then Some(UpCall) else None
    case Down =>
      (match l.ctrl.state
       case CtrlStarting => Some(CancelCall)
       case CtrlUp => Some(DownCall)
       case CtrlUpDownReq => Some(DownCall)
       case _ => None)
    case Async(force) =>
      if l.ctrl.state == CtrlUp && (force || !l.ctrl.policy.downReq) then Some(AsyncCall) else None
    case _ => None
  }

  /** The part under the lock; an async-down has cleared the clocks by then. */
  function Claimed(l: Link, kind: Kind): Link {
    match kind
    case UpCall => l.(ctrl := l.ctrl.(state := CtrlStarting))
    case CancelCall => l.(ctrl := l.ctrl.(state := CtrlStopping, isCanceled := true))
    case DownCall => l.(ctrl := l.ctrl.(state := CtrlStopping))
    case AsyncCall => l.(ctrl := l.ctrl.(state := CtrlStopping, clock := CLOCK_ZERO))
  }

  /** The part after it, and the answer. */
  function Finished(l: Link, kind: Kind, e: Env): (Link, Rtn) {
    var n := l.ctrl.counters;
    match kind
    case UpCall => LinkUpCmd(l, e)
    case CancelCall =>
      var (core, rtn) := CoreLinkCancel(l.core, OnDown);
      (l.(ctrl := l.ctrl.(counters := n.(upCancelCmd := n.upCancelCmd + 1)), core := core), rtn)
    case DownCall =>
      var (core, rtn) := CoreLinkDown(l.core, OnDown);
      (l.(ctrl := l.ctrl.(counters := n.(downCmd := n.downCmd + 1), clock := CLOCK_ZERO), core := core), rtn)
    case AsyncCall =>
      var (core, rtn) := CoreLinkDown(l.core, OnAsyncDown);
      (l.(core := core), rtn)
  }

  /** With nothing between them the two parts are the one step of LinkSession. */
  lemma PartsTogether(l: Link, st: Step, e: Env)
    requires Claim(l, st).Some?
    ensures var kind := Claim(l, st).value; var (l', rtn) := Finished(Claimed(l, kind), kind, e);
      && Effect(l, st, e) == l' && (st.Up? ==> LinkUp(l, e).1 == rtn)
      && (st.Down? ==> LinkDown(l).1 == rtn) && (st.Async? ==> AsyncDown(l, st.force).1 == rtn)
  {
  }

  // ------------------------------------------------------------------ the machine

  /** A command between its parts, and whether a link-up has found the link DOWN since the first. */
  datatype Caller = Caller(kind: Kind, crossed: bool)

  datatype Split = Split(link: Link, now: int, inside: map<nat, Caller>)

  datatype Move = Other(st: Step, e: Env) | Claims(t: nat, st: Step, e: Env) | Calls(t: nat, e: Env)

  predicate Ready(s: Split, m: Move) {
    match m
    case Other(st, e) => Enabled(World(s.link, s.now), st, e) && Claim(s.link, st).None?
    case Claims(t, st, e) => Enabled(World(s.link, s.now), st, e) && Claim(s.link, st).Some? && t !in s.inside
    case Calls(t, e) => s.now <= e.t0 <= e.t1 <= e.t2 && t in s.inside
  }

  function Crossed(inside: map<nat, Caller>): map<nat, Caller> {
    map t | t in inside :: inside[t].(crossed := true)
  }

  function Moved(s: Split, m: Move): Split
    requires Ready(s, m)
  {
    match m
    case Other(st, e) => s.(link := Effect(s.link, st, e), now := e.t2)
    case Claims(t, st, e) =>
      var kind := Claim(s.link, st).value;
      var others := if kind.UpCall? then Crossed(s.inside) else s.inside;
      s.(link := Claimed(s.link, kind), now := e.t2, inside := others[t := Caller(kind, false)])
    case Calls(t, e) =>
      s.(link := Finished(s.link, s.inside[t].kind, e).0, now := e.t2, inside := s.inside - {t})
  }

  predicate Runs(s: Split, run: seq<Move>)
    decreases |run|
  {
    run == [] || (Ready(s, run[0]) && Runs(Moved(s, run[0]), run[1..]))
  }

  function After(s: Split, run: seq<Move>): Split
    requires Runs(s, run)
    decreases |run|
  {
    if run == [] then s else After(Moved(s, run[0]), run[1..])
  }

  predicate Fresh(s: Split) { Initial(World(s.link, s.now)) && s.inside == map[] }

  // ------------------------------------------------------------------ moves that hit somebody else

  /** A link-up is between its parts. */
  predicate Opening(l: Link) {
    && l.ctrl.state == CtrlStarting && l.core.queued == {}
    && (l.core.state == Unconfigured || l.core.state == Configured || l.core.state == CoreDown)
  }

  /** A call that finds the link not stopping: it cancels the attempt or takes down the link of a session
      nobody claimed, or clears the clocks and the attempt count of one that is starting. */
  predicate Strays(l: Link, kind: Kind) {
    match kind
    case UpCall => false
    case CancelCall => l.ctrl.state == CtrlStarting && (l.core.state == CoreAn || l.core.state == GoingUp)
    case DownCall =>
      || (l.ctrl.state == CtrlStarting && AttemptPending(l.core))
      || l.ctrl.state == CtrlUp || l.ctrl.state == CtrlUpDownReq
    case AsyncCall => l.ctrl.state == CtrlUp || l.ctrl.state == CtrlUpDownReq
  }

  /** A call that strays, or a down claimed or a cancel's second ending made while a link-up is between its
      parts. */
  predicate Disturbs(s: Split, m: Move)
    requires Ready(s, m)
  {
    match m
    case Calls(t, _) => Strays(s.link, s.inside[t].kind)
    case Claims(_, st, _) => st.Down? && Opening(s.link)
    case Other(st, _) => st.CancelEnds? && Opening(s.link) && s.link.core.state == CoreDown
  }

  predicate Undisturbed(s: Split, run: seq<Move>)
    requires Runs(s, run)
    decreases |run|
  {
    run == [] || (!Disturbs(s, run[0]) && Undisturbed(Moved(s, run[0]), run[1..]))
  }

  // ------------------------------------------------------------------ what undisturbed runs keep

  /** A down is between its parts. */
  predicate Waiting(l: Link) {
    && l.ctrl.state == CtrlStopping && l.core.queued == {}
    && (l.core.state == CoreAn || l.core.state == GoingUp || l.core.state == CoreUp)
  }

  /** The link with a link-up between its parts counted as not begun and a down as made. */
  function Whole(l: Link): Link {
    if Opening(l) then l.(ctrl := l.ctrl.(state := CtrlDown))
    else if !Waiting(l) then l
    else if l.core.state == CoreUp then
      l.(core := l.core.(state := GoingDown, downCallback := OnDown, queued := {DownWork}))
    else l.(core := l.core.(state := Canceling, downCallback := OnDown, queued := {UpCancelWork}))
  }

  predicate LinkInv(l: Link, now: int) {
    Inv(World(Whole(l), now)) && (l.core.cancelTail ==> !l.core.downCallback.NoCallback?)
  }

  /** What a command whose session it still is can find at its second part. */
  predicate InOwnSession(l: Link, c: Caller) {
    match c.kind
    case UpCall => Opening(l) && !c.crossed
    case CancelCall => c.crossed || (l.acct.active && l.ctrl.state != CtrlStarting)
    case _ =>
      c.crossed || (&& l.acct.active
                    && (l.ctrl.state == CtrlDown || (l.ctrl.state == CtrlStopping && !AttemptPending(l.core))))
  }

  /** The call that takes a link claimed for a down on its way. */
  predicate Due(l: Link, kind: Kind) {
    if l.core.state == CoreUp then kind.DownCall? || kind.AsyncCall? else kind.CancelCall?
  }

  /** At most one link-up is between its parts, and only while the link shows it; a link claimed for a down
      has the call to come. */
  predicate SplitInv(s: Split) {
    && LinkInv(s.link, s.now)
    && (forall t :: t in s.inside ==> InOwnSession(s.link, s.inside[t]))
    && (Waiting(s.link) ==> exists t :: t in s.inside && Due(s.link, s.inside[t].kind))
    && (forall t, u ::
          t in s.inside && u in s.inside && s.inside[t].kind.UpCall? && s.inside[u].kind.UpCall? ==> t == u)
    && (Opening(s.link) ==> exists t :: t in s.inside && s.inside[t].kind.UpCall?)
  }

  lemma WholeIsCoupled(w: World)
    requires Inv(w)
    ensures !Waiting(w.link) && !Opening(w.link)
  {
  }

  /** Away from the windows between the parts the steps are those of LinkSession. */
  lemma OtherKeeps(l: Link, now: int, st: Step, e: Env)
    requires !Waiting(l) && !Opening(l) && LinkInv(l, now) && Enabled(World(l, now), st, e)
    ensures LinkInv(Effect(l, st, e), e.t2) && !Opening(Effect(l, st, e)) && !Waiting(Effect(l, st, e))
  {
    StepKeeps(World(l, now), st, e);
    WholeIsCoupled(Next(World(l, now), (st, e)));
  }

  /** In the window of a down core goes on: its attempt comes up or fails, a link that is up has a fault. */
  predicate Proceeds(st: Step) { st.Success? || st.UpFails? || st.TimesOut? || st.Faults? }

  lemma UpMeanwhile(l: Link, now: int, e: Env)
    requires Waiting(l) && LinkInv(l, now) && Enabled(World(l, now), Success, e)
    ensures var l' := Effect(l, Success, e); l'.ctrl.state == CtrlUp && LinkInv(l', e.t2)
  {
  }

  lemma EndsMeanwhile(l: Link, now: int, st: Step, e: Env)
    requires Waiting(l) && LinkInv(l, now) && Enabled(World(l, now), st, e)
    requires st.UpFails? || st.TimesOut? || st.Faults?
    ensures var l' := Effect(l, st, e);
      && LinkInv(l', e.t2) && l'.ctrl.state == CtrlStopping && (Waiting(l') ==> l'.core == l.core)
  {
  }

  /** All else in that window is what it would be after the call, or nothing. */
  lemma WaitingStep(l: Link, now: int, st: Step, e: Env)
    requires Waiting(l) && LinkInv(l, now) && Enabled(World(l, now), st, e) && !Proceeds(st)
    ensures var l' := Effect(l, st, e);
      && l'.ctrl.state == CtrlStopping && (l'.core.state == CoreUp <==> l.core.state == CoreUp)
      && if st.Async? || st.SetPolicy? || st.CancelEnds? then
           Enabled(World(Whole(l), now), st, e) && Whole(l') == Effect(Whole(l), st, e)
         else Whole(l') == Whole(l)
  {
  }

  lemma WaitingKeeps(l: Link, now: int, st: Step, e: Env)
    requires Waiting(l) && LinkInv(l, now) && Enabled(World(l, now), st, e)
    ensures var l' := Effect(l, st, e);
      && LinkInv(l', e.t2) && !Opening(l')
      && (Waiting(l') ==> (l'.core.state == CoreUp <==> l.core.state == CoreUp))
  {
    if st.Success? {
      UpMeanwhile(l, now, e);
    } else if Proceeds(st) {
      EndsMeanwhile(l, now, st, e);
    } else {
      WaitingStep(l, now, st, e);
      var k := World(Whole(l), now);
      if st.Async? || st.SetPolicy? || st.CancelEnds? { StepKeeps(k, st, e); } else { StepKeeps(k, Wait, e); }
    }
  }

  /** An async-down in the window of a link-up is refused; it clears the clocks before they are started. */
  lemma OpeningAsync(l: Link, now: int, force: bool, e: Env)
    requires Opening(l) && LinkInv(l, now) && Enabled(World(l, now), Async(force), e)
    ensures LinkInv(Effect(l, Async(force), e), e.t2) && Opening(Effect(l, Async(force), e))
  {
  }

  /** In the window of a link-up nothing else happens, cancels' second endings apart. */
  lemma OpeningStep(l: Link, now: int, st: Step, e: Env)
    requires Opening(l) && LinkInv(l, now) && Enabled(World(l, now), st, e) && Claim(l, st).None? && !st.Async?
    requires st.CancelEnds? ==> l.core.state != CoreDown
    ensures var l' := Effect(l, st, e);
      && Opening(l')
      && if st.SetPolicy? || st.CancelEnds? then
           Enabled(World(Whole(l), now), st, e) && Whole(l') == Effect(Whole(l), st, e)
         else l' == l
  {
  }

  lemma OpeningKeeps(l: Link, now: int, st: Step, e: Env)
    requires Opening(l) && LinkInv(l, now) && Enabled(World(l, now), st, e) && Claim(l, st).None?
    requires st.CancelEnds? ==> l.core.state != CoreDown
    ensures LinkInv(Effect(l, st, e), e.t2) && Opening(Effect(l, st, e))
    ensures !l.core.cancelTail ==> !Effect(l, st, e).core.cancelTail
  {
    if st.Async? {
      OpeningAsync(l, now, st.force, e);
    } else {
      OpeningStep(l, now, st, e);
      var k := World(Whole(l), now);
      if st.SetPolicy? || st.CancelEnds? { StepKeeps(k, st, e); } else { StepKeeps(k, Wait, e); }
    }
  }

  lemma ClaimKeeps(l: Link, now: int, st: Step, e: Env)
    requires LinkInv(l, now) && Enabled(World(l, now), st, e) && Claim(l, st).Some?
    requires !(st.Down? && Opening(l))
    ensures var kind := Claim(l, st).value; var l' := Claimed(l, kind);
      && LinkInv(l', e.t2) && !Opening(l) && (Opening(l') <==> st.Up?)
      && !Waiting(l) && (Waiting(l') ==> Due(l', kind))
  {
  }

  function DownCounted(l: Link): Link {
    l.(ctrl := l.ctrl.(counters := l.ctrl.counters.(downCmd := l.ctrl.counters.downCmd + 1), clock := CLOCK_ZERO))
  }

  lemma DownCountedKeeps(l: Link, now: int, later: int)
    requires Inv(World(l, now)) && now <= later && (l.ctrl.state == CtrlDown || l.ctrl.state == CtrlStopping)
    ensures Inv(World(DownCounted(l), later))
  {
  }

  lemma DownCallKeeps(l: Link, now: int, e: Env)
    requires LinkInv(l, now) && now <= e.t0 <= e.t1 <= e.t2 && !Strays(l, DownCall)
    ensures LinkInv(Finished(l, DownCall, e).0, e.t2) && Opening(Finished(l, DownCall, e).0) == Opening(l)
  {
    assert Whole(Finished(l, DownCall, e).0) == DownCounted(Whole(l)) by {
      assert Waiting(l) || Coupled(l) || Opening(l);
    }
    DownCountedKeeps(Whole(l), now, e.t2);
  }

  function CancelCounted(l: Link): Link {
    l.(ctrl := l.ctrl.(counters := l.ctrl.counters.(upCancelCmd := l.ctrl.counters.upCancelCmd + 1)))
  }

  lemma CancelCountedKeeps(l: Link, now: int, later: int)
    requires Inv(World(l, now)) && now <= later
    ensures Inv(World(CancelCounted(l), later))
  {
  }

  lemma CancelCallKeeps(l: Link, now: int, e: Env)
    requires LinkInv(l, now) && now <= e.t0 <= e.t1 <= e.t2 && !Strays(l, CancelCall)
    ensures LinkInv(Finished(l, CancelCall, e).0, e.t2) && Opening(Finished(l, CancelCall, e).0) == Opening(l)
  {
    assert Whole(Finished(l, CancelCall, e).0) == CancelCounted(Whole(l)) by {
      assert Waiting(l) || Coupled(l) || Opening(l);
    }
    CancelCountedKeeps(Whole(l), now, e.t2);
  }

  lemma AsyncCallKeeps(l: Link, now: int, e: Env)
    requires LinkInv(l, now) && now <= e.t0 <= e.t1 <= e.t2 && !Strays(l, AsyncCall)
    ensures LinkInv(Finished(l, AsyncCall, e).0, e.t2) && Opening(Finished(l, AsyncCall, e).0) == Opening(l)
  {
  }

  lemma UpCallKeeps(l: Link, now: int, e: Env)
    requires LinkInv(l, now) && now <= e.t0 <= e.t1 <= e.t2 && Opening(l)
    ensures LinkInv(Finished(l, UpCall, e).0, e.t2) && !Opening(Finished(l, UpCall, e).0)
  {
    assert Finished(l, UpCall, e).0 == Effect(Whole(l), Up, e);
    StepKeeps(World(Whole(l), now), Up, e);
    WholeIsCoupled(Next(World(Whole(l), now), (Up, e)));
  }

  lemma CallKeeps(l: Link, now: int, kind: Kind, e: Env)
    requires LinkInv(l, now) && now <= e.t0 <= e.t1 <= e.t2 && !Strays(l, kind) && (kind.UpCall? ==> Opening(l))
    ensures var l' := Finished(l, kind, e).0;
      LinkInv(l', e.t2) && (Opening(l') <==> Opening(l) && !kind.UpCall?)
  {
    match kind
    case UpCall => UpCallKeeps(l, now, e);
    case CancelCall => CancelCallKeeps(l, now, e);
    case DownCall => DownCallKeeps(l, now, e);
    case AsyncCall => AsyncCallKeeps(l, now, e);
  }

  /** Only the call that is due ends the window of a down. */
  lemma CallInWindow(l: Link, kind: Kind, e: Env)
    requires kind.UpCall? ==> Opening(l)
    ensures var l' := Finished(l, kind, e).0; Waiting(l') ==> Waiting(l) && l'.core == l.core && !Due(l, kind)
  {
  }

  lemma CancelerStays(l: Link, now: int, st: Step, e: Env)
    requires LinkInv(l, now) && Enabled(World(l, now), st, e) && Claim(l, st).None?
    requires l.acct.active && l.ctrl.state != CtrlStarting
    ensures Effect(l, st, e).acct.active && Effect(l, st, e).ctrl.state != CtrlStarting
  {
  }

  lemma DownerStays(l: Link, now: int, st: Step, e: Env)
    requires LinkInv(l, now) && Enabled(World(l, now), st, e) && Claim(l, st).None?
    requires l.acct.active && (l.ctrl.state == CtrlDown || (l.ctrl.state == CtrlStopping && !AttemptPending(l.core)))
    ensures var l' := Effect(l, st, e);
      l'.acct.active && (l'.ctrl.state == CtrlDown || (l'.ctrl.state == CtrlStopping && !AttemptPending(l'.core)))
  {
  }

  lemma OwnSessionStays(l: Link, now: int, st: Step, e: Env, c: Caller)
    requires LinkInv(l, now) && Enabled(World(l, now), st, e) && Claim(l, st).None?
    requires InOwnSession(l, c) && !c.kind.UpCall?
    ensures InOwnSession(Effect(l, st, e), c)
  {
    if c.crossed {
    } else if c.kind.CancelCall? {
      CancelerStays(l, now, st, e);
    } else {
      DownerStays(l, now, st, e);
    }
  }

  lemma CallLeavesOthers(l: Link, now: int, kind: Kind, e: Env, c: Caller)
    requires LinkInv(l, now) && !Strays(l, kind) && (kind.UpCall? ==> Opening(l))
    requires InOwnSession(l, c) && !c.kind.UpCall?
    ensures InOwnSession(Finished(l, kind, e).0, c)
  {
  }

  lemma OtherMoveKeeps(s: Split, st: Step, e: Env)
    requires SplitInv(s) && Ready(s, Other(st, e)) && !Disturbs(s, Other(st, e))
    ensures SplitInv(Moved(s, Other(st, e)))
  {
    var s' := Moved(s, Other(st, e));
    if Waiting(s.link) { WaitingKeeps(s.link, s.now, st, e); }
    else if Opening(s.link) { OpeningKeeps(s.link, s.now, st, e); }
    else { OtherKeeps(s.link, s.now, st, e); }
    forall t | t in s'.inside ensures InOwnSession(s'.link, s'.inside[t]) {
      if !s.inside[t].kind.UpCall? { OwnSessionStays(s.link, s.now, st, e, s.inside[t]); }
    }
    if Waiting(s'.link) {
      var u :| u in s.inside && Due(s.link, s.inside[u].kind);
      assert u in s'.inside && Due(s'.link, s'.inside[u].kind);
    }
  }

  lemma ClaimMoveKeeps(s: Split, t: nat, st: Step, e: Env)
    requires SplitInv(s) && Ready(s, Claims(t, st, e)) && !Disturbs(s, Claims(t, st, e))
    ensures SplitInv(Moved(s, Claims(t, st, e)))
  {
    var s' := Moved(s, Claims(t, st, e));
    ClaimKeeps(s.link, s.now, st, e);
    assert t in s'.inside && s'.inside[t].kind == Claim(s.link, st).value;
    forall u | u in s'.inside ensures InOwnSession(s'.link, s'.inside[u]) {
      if u != t { assert u in s.inside && InOwnSession(s.link, s.inside[u]); }
    }
    forall u | u in s'.inside && u != t ensures !s'.inside[u].kind.UpCall? {
      assert u in s.inside && InOwnSession(s.link, s.inside[u]);
    }
  }

  lemma CallMoveKeeps(s: Split, t: nat, e: Env)
    requires SplitInv(s) && Ready(s, Calls(t, e)) && !Disturbs(s, Calls(t, e))
    ensures SplitInv(Moved(s, Calls(t, e)))
  {
    var s' := Moved(s, Calls(t, e));
    var kind := s.inside[t].kind;
    assert InOwnSession(s.link, s.inside[t]);
    CallKeeps(s.link, s.now, kind, e);
    CallInWindow(s.link, kind, e);
    forall u | u in s'.inside ensures InOwnSession(s'.link, s'.inside[u]) {
      assert u in s.inside && InOwnSession(s.link, s.inside[u]);
      if !s.inside[u].kind.UpCall? { CallLeavesOthers(s.link, s.now, kind, e, s.inside[u]); }
    }
    if Waiting(s'.link) {
      var u :| u in s.inside && Due(s.link, s.inside[u].kind);
      assert u in s'.inside && Due(s'.link, s'.inside[u].kind);
    }
    if Opening(s'.link) {
      var u :| u in s.inside && s.inside[u].kind.UpCall?;
      assert u in s'.inside && s'.inside[u].kind.UpCall?;
    }
  }

  lemma MoveKeeps(s: Split, m: Move)
    requires SplitInv(s) && Ready(s, m) && !Disturbs(s, m)
    ensures SplitInv(Moved(s, m))
  {
    match m
    case Other(st, e) => OtherMoveKeeps(s, st, e);
    case Claims(t, st, e) => ClaimMoveKeeps(s, t, st, e);
    case Calls(t, e) => CallMoveKeeps(s, t, e);
  }

  lemma {:induction false} RunKeeps(s: Split, run: seq<Move>)
    requires SplitInv(s) && Runs(s, run) && Undisturbed(s, run)
    ensures SplitInv(After(s, run))
    decreases |run|
  {
    if run != [] {
      MoveKeeps(s, run[0]);
      RunKeeps(Moved(s, run[0]), run[1..]);
    }
  }

  lemma FreshInv(s: Split)
    requires Fresh(s)
    ensures SplitInv(s)
  {
    InitialInv(World(s.link, s.now));
  }

  // ------------------------------------------------------------------ the theorems

  lemma DueIsTaken(l: Link, kind: Kind, e: Env)
    requires Waiting(l) && Due(l, kind)
    ensures Finished(l, kind, e).1 == Ok && !Waiting(Finished(l, kind, e).0)
  {
  }

  /** Whatever comes between the parts of commands, as long as nothing is disturbed: with a link-up between
      its parts counted as not begun and a down as made the layers are coupled, attempts, tries and endings
      balance and the clocks are in order. A link claimed for a down has a call to come that core accepts,
      one claimed for a link-up has its one call to come. */
  lemma SplitKeeps(s: Split, run: seq<Move>, e: Env)
    requires Fresh(s) && Runs(s, run) && Undisturbed(s, run)
    ensures var u := After(s, run);
      && Inv(World(Whole(u.link), u.now))
      && (Waiting(u.link) ==> exists t :: t in u.inside && Finished(u.link, u.inside[t].kind, e).1 == Ok
                                          && !Waiting(Finished(u.link, u.inside[t].kind, e).0))
      && (Opening(u.link) <==> exists t :: t in u.inside && u.inside[t].kind.UpCall?)
  {
    FreshInv(s);
    RunKeeps(s, run);
    var u := After(s, run);
    if Waiting(u.link) {
      var t :| t in u.inside && Due(u.link, u.inside[t].kind);
      DueIsTaken(u.link, u.inside[t].kind, e);
    }
    forall t | t in u.inside ensures InOwnSession(u.link, u.inside[t]) {
    }
  }

  lemma UpAnswer(l: Link, now: int, e: Env)
    requires LinkInv(l, now) && Opening(l)
    ensures Finished(l, UpCall, e).1 == Ok <==> e.serdesReady && l.core.state != Unconfigured
  {
  }

  /** What a rejected and an accepted call leave. */
  predicate Answered(l: Link, l': Link, rtn: Rtn) {
    if rtn == Ok then
      l'.ctrl.state == CtrlStopping && Coupled(l') && l'.acct.terminals == 0
    else
      && rtn == EBADRQC && l'.core == l.core && l'.ctrl.state == l.ctrl.state
      && (if l.ctrl.state == CtrlDown then l.acct.terminals >= 1 else l.acct.ups == 1)
  }

  lemma CancelAnswer(l: Link, now: int, e: Env)
    requires LinkInv(l, now) && InOwnSession(l, Caller(CancelCall, false))
    ensures var (l', rtn) := Finished(l, CancelCall, e);
      && (rtn != Ok <==> l.core.state == CoreUp || l.ctrl.state == CtrlDown) && Answered(l, l', rtn)
  {
  }

  lemma DownAnswer(l: Link, now: int, kind: Kind, e: Env)
    requires LinkInv(l, now) && InOwnSession(l, Caller(kind, false)) && (kind.DownCall? || kind.AsyncCall?)
    ensures var (l', rtn) := Finished(l, kind, e);
      && (rtn != Ok <==> l.ctrl.state == CtrlDown) && Answered(l, l', rtn)
  {
  }

  /** What core answers to a command no link-up has crossed. A link-up is accepted when serdes is ready and
      core is configured. A cancel is rejected exactly when core is UP by then, with LINK_UP told, or the
      link DOWN, with an ending told; a down of a link that was UP exactly when the link is DOWN by then. A
      rejected one leaves the states as they are; an accepted one has the link on its way down, no ending
      told yet. */
  lemma RejectedExactly(s: Split, run: seq<Move>, t: nat, e: Env)
    requires Fresh(s) && Runs(s, run) && Undisturbed(s, run) && Ready(After(s, run), Calls(t, e))
    requires !After(s, run).inside[t].crossed
    ensures var l, kind := After(s, run).link, After(s, run).inside[t].kind; var (l', rtn) := Finished(l, kind, e);
      && (kind.UpCall? ==> (rtn == Ok <==> e.serdesReady && l.core.state != Unconfigured))
      && (kind.CancelCall? ==> (rtn != Ok <==> l.core.state == CoreUp || l.ctrl.state == CtrlDown))
      && (kind.DownCall? || kind.AsyncCall? ==> (rtn != Ok <==> l.ctrl.state == CtrlDown))
      && (!kind.UpCall? ==> Answered(l, l', rtn))
  {
    FreshInv(s);
    RunKeeps(s, run);
    var u := After(s, run);
    assert InOwnSession(u.link, u.inside[t]);
    match u.inside[t].kind
    case UpCall => UpAnswer(u.link, u.now, e);
    case CancelCall => CancelAnswer(u.link, u.now, e);
    case DownCall => DownAnswer(u.link, u.now, DownCall, e);
    case AsyncCall => DownAnswer(u.link, u.now, AsyncCall, e);
  }

  /** A move that parts the layers: a call that strays onto an attempt or onto a link that is UP, or a down
      claimed while a link-up is between its parts. */
  predicate Uncouples(s: Split, m: Move)
    requires Ready(s, m)
  {
    match m
    case Calls(t, _) =>
      var up := s.link.ctrl.state == CtrlUp || s.link.ctrl.state == CtrlUpDownReq;
      (match s.inside[t].kind
       case UpCall => false
       case CancelCall => Strays(s.link, CancelCall)
       case _ => up)
    case Claims(_, st, _) => st.Down? && Opening(s.link)
    case Other(_, _) => false
  }

  lemma StrayUncouples(l: Link, now: int, kind: Kind, e: Env)
    requires LinkInv(l, now) && Strays(l, kind)
    ensures Coupled(Whole(Finished(l, kind, e).0)) <==> kind.DownCall? && l.ctrl.state == CtrlStarting
  {
  }

  lemma ClaimUncouples(l: Link, now: int)
    requires LinkInv(l, now) && Opening(l)
    ensures !Coupled(Whole(Claimed(l, CancelCall)))
  {
  }

  lemma TailStaysCoupled(l: Link, now: int, cause: CauseMap, e: Env)
    requires LinkInv(l, now) && Opening(l) && Enabled(World(l, now), CancelEnds(cause), e)
    ensures Coupled(Whole(Effect(l, CancelEnds(cause), e)))
  {
  }

  /** The layers stay coupled by exactly the moves that do not part them, and to disturb anything by a call
      takes a link-up since its command began. */
  lemma UncoupledExactly(s: Split, run: seq<Move>, m: Move)
    requires Fresh(s) && Runs(s, run) && Undisturbed(s, run) && Ready(After(s, run), m)
    ensures Coupled(Whole(Moved(After(s, run), m).link)) <==> !Uncouples(After(s, run), m)
    ensures m.Calls? && Disturbs(After(s, run), m) ==> After(s, run).inside[m.t].crossed
  {
    FreshInv(s);
    RunKeeps(s, run);
    var u := After(s, run);
    if !Disturbs(u, m) {
      MoveKeeps(u, m);
    } else {
      match m
      case Calls(t, e) =>
        assert InOwnSession(u.link, u.inside[t]);
        StrayUncouples(u.link, u.now, u.inside[t].kind, e);
      case Claims(_, _, _) => ClaimUncouples(u.link, u.now);
      case Other(st, e) => TailStaysCoupled(u.link, u.now, st.cause, e);
    }
  }

  /** Callers of link-ups who first let other commands finish, and a canceled session make its second
      announcement, and callers of downs who let a link-up finish. */
  predicate Polite(s: Split, run: seq<Move>)
    requires Runs(s, run)
    decreases |run|
  {
    run == [] ||
    (&& (run[0].Claims? && run[0].st.Up? ==> s.inside == map[] && !s.link.core.cancelTail)
     && (run[0].Claims? && run[0].st.Down? ==> forall t :: t in s.inside ==> !s.inside[t].kind.UpCall?)
     && Polite(Moved(s, run[0]), run[1..]))
  }

  predicate Uncrossed(s: Split) {
    && (forall t :: t in s.inside ==> !s.inside[t].crossed)
    && (Opening(s.link) ==> !s.link.core.cancelTail)
  }

  lemma OpensByClaim(s: Split, m: Move)
    requires SplitInv(s) && Ready(s, m) && !Disturbs(s, m) && !(m.Claims? && m.st.Up?)
    ensures Opening(Moved(s, m).link) ==> Opening(s.link)
    ensures Opening(s.link) && !s.link.core.cancelTail && Opening(Moved(s, m).link) ==>
              !Moved(s, m).link.core.cancelTail
  {
    match m
    case Other(st, e) =>
      if Waiting(s.link) { WaitingKeeps(s.link, s.now, st, e); }
      else if Opening(s.link) { OpeningKeeps(s.link, s.now, st, e); }
      else { OtherKeeps(s.link, s.now, st, e); }
    case Claims(t, st, e) => ClaimKeeps(s.link, s.now, st, e);
    case Calls(t, e) =>
      assert InOwnSession(s.link, s.inside[t]);
      CallKeeps(s.link, s.now, s.inside[t].kind, e);
  }

  lemma PoliteMove(s: Split, m: Move)
    requires SplitInv(s) && Uncrossed(s) && Ready(s, m)
    requires m.Claims? && m.st.Up? ==> s.inside == map[] && !s.link.core.cancelTail
    requires m.Claims? && m.st.Down? ==> forall t :: t in s.inside ==> !s.inside[t].kind.UpCall?
    ensures !Disturbs(s, m) && Uncrossed(Moved(s, m))
  {
    if m.Calls? {
      assert InOwnSession(s.link, s.inside[m.t]) && !s.inside[m.t].crossed;
    }
    if !(m.Claims? && m.st.Up?) {
      OpensByClaim(s, m);
    }
  }

  lemma {:induction false} PoliteRun(s: Split, run: seq<Move>)
    requires SplitInv(s) && Uncrossed(s) && Runs(s, run) && Polite(s, run)
    ensures Undisturbed(s, run)
    decreases |run|
  {
    if run != [] {
      PoliteMove(s, run[0]);
      MoveKeeps(s, run[0]);
      PoliteRun(Moved(s, run[0]), run[1..]);
    }
  }

  /** For polite callers nothing is disturbed. */
  lemma PoliteCallers(s: Split, run: seq<Move>)
    requires Fresh(s) && Runs(s, run) && Polite(s, run)
    ensures Undisturbed(s, run) && Inv(World(Whole(After(s, run).link), After(s, run).now))
  {
    FreshInv(s);
    PoliteRun(s, run);
    RunKeeps(s, run);
  }

  // ------------------------------------------------------------------ the runs of LinkSession among these

  lemma {:induction false} Joined(s: Split, a: seq<Move>, b: seq<Move>)
    requires Runs(s, a) && Undisturbed(s, a) && Runs(After(s, a), b) && Undisturbed(After(s, a), b)
    ensures Runs(s, a + b) && Undisturbed(s, a + b) && After(s, a + b) == After(After(s, a), b)
    decreases |a|
  {
    if a == [] {
      assert a + b == b;
    } else {
      assert (a + b)[0] == a[0] && (a + b)[1..] == a[1..] + b;
      Joined(Moved(s, a[0]), a[1..], b);
    }
  }

  lemma More(s: Split, run: seq<Move>, m: Move)
    requires Runs(s, run) && Undisturbed(s, run) && Ready(After(s, run), m) && !Disturbs(After(s, run), m)
    ensures Runs(s, run + [m]) && Undisturbed(s, run + [m]) && After(s, run + [m]) == Moved(After(s, run), m)
  {
    assert [m][1..] == [];
    Joined(s, run, [m]);
  }

  lemma InParts(s: Split, st: Step, e: Env) returns (run: seq<Move>)
    requires s.inside == map[] && Enabled(World(s.link, s.now), st, e) && !Opening(s.link)
    ensures Runs(s, run) && Undisturbed(s, run) && After(s, run) == Split(Effect(s.link, st, e), e.t2, map[])
  {
    run := [];
    if Claim(s.link, st).None? {
      More(s, run, Other(st, e));
      run := run + [Other(st, e)];
    } else {
      PartsTogether(s.link, st, e);
      var first := Claims(0, st, e.(t1 := e.t0, t2 := e.t0));
      More(s, run, first);
      run := run + [first];
      More(s, run, Calls(0, e));
      run := run + [Calls(0, e)];
    }
  }

  /** Every run of LinkSession is one of these, each command making its two parts in a row. */
  lemma {:induction false} AmongThese(w: World, steps: LinkTheorems.Run) returns (run: seq<Move>)
    requires Inv(w) && LinkSession.Follows(w, steps)
    ensures var s := Split(w.link, w.now, map[]); var u := LinkSession.After(w, steps);
      Runs(s, run) && Undisturbed(s, run) && After(s, run) == Split(u.link, u.now, map[])
    decreases |steps|
  {
    if steps == [] {
      run := [];
    } else {
      WholeIsCoupled(w);
      StepKeeps(w, steps[0].0, steps[0].1);
      var first := InParts(Split(w.link, w.now, map[]), steps[0].0, steps[0].1);
      var rest := AmongThese(Next(w, steps[0]), steps[1..]);
      Joined(Split(w.link, w.now, map[]), first, rest);
      run := first + rest;
    }
  }

  // ------------------------------------------------------------------ what does happen

  /** All that happens in the runs below happens at one time. */
  predicate Still(s: Split, e: Env) { s.now == e.t0 == e.t1 == e.t2 && e.serdesReady }

  lemma Attempting(s: Split, config: Config, e: Env) returns (run: seq<Move>)
    requires Fresh(s) && Still(s, e) && !config.autoneg && (config.settleMs == 0) == (config.checkMs == 0)
    ensures Runs(s, run) && Undisturbed(s, run)
    ensures var u := After(s, run);
      && Still(u, e) && u.inside == map[] && u.link.log == [] && !u.link.core.cancelTail
      && u.link.ctrl.state == CtrlStarting && u.link.core.state == GoingUp && u.link.core.queued == {}
  {
    var w := World(s.link, s.now);
    InitialInv(w);
    LinkTheorems.StartedAt(w, config, e);
    run := AmongThese(w, [(SetConfig(config, true), e), (Up, e)]);
  }

  /** A down that finds an attempt on its way and is accepted by the control layer; the attempt comes up
      before core is called, core rejects the down, and the link stays UP. */
  lemma DownRejected(s: Split, config: Config, e: Env) returns (run: seq<Move>)
    requires Fresh(s) && Still(s, e) && !config.autoneg && (config.settleMs == 0) == (config.checkMs == 0)
    ensures Runs(s, run) && Undisturbed(s, run) && Ready(After(s, run), Calls(0, e))
    ensures var u := After(s, run); var (l', rtn) := Finished(u.link, u.inside[0].kind, e);
      && u.inside == map[0 := Caller(CancelCall, false)] && rtn == EBADRQC
      && l'.ctrl.state == CtrlUp && l'.core.state == CoreUp && l'.ctrl.isCanceled && l'.log == [Notified(LinkUpNotif)]
  {
    run := Attempting(s, config, e);
    More(s, run, Claims(0, Down, e));
    run := run + [Claims(0, Down, e)];
    More(s, run, Other(Success, e));
    run := run + [Other(Success, e)];
  }

  lemma Two(s: Split, m: Move, m': Move)
    requires Ready(s, m) && Ready(Moved(s, m), m')
    ensures Runs(s, [m, m']) && After(s, [m, m']) == Moved(Moved(s, m), m')
  {
    var u := Moved(s, m);
    assert [m'][1..] == [] && After(u, [m']) == Moved(u, m');
    assert [m, m'][1..] == [m'];
  }

  /** A down claimed while a link-up is between its parts: core rejects it, having nothing to cancel yet, and
      the link-up goes on with the cancel forgotten. */
  lemma LinkUpGoesOn(s: Split, config: Config, e: Env) returns (run: seq<Move>)
    requires Fresh(s) && Still(s, e) && !config.autoneg && (config.settleMs == 0) == (config.checkMs == 0)
    ensures Runs(s, run) && Undisturbed(s, run)
    ensures var u := After(s, run); var down := Claims(1, Down, e);
      && Ready(u, down) && u.inside == map[0 := Caller(UpCall, false)]
      && Finished(Moved(u, down).link, CancelCall, e).1 == EBADRQC
      && Runs(Moved(u, down), [Calls(1, e), Calls(0, e)])
      && var l := After(Moved(u, down), [Calls(1, e), Calls(0, e)]).link;
         l.ctrl.state == CtrlStopping && l.core.state == GoingUp && !l.ctrl.isCanceled
  {
    var config' := SetConfig(config, true);
    More(s, [], Other(config', e));
    run := [] + [Other(config', e)];
    More(s, run, Claims(0, Up, e));
    run := run + [Claims(0, Up, e)];
    Two(Moved(After(s, run), Claims(1, Down, e)), Calls(1, e), Calls(0, e));
  }

  /** An attempt claimed for a cancel has timed out before core is called. */
  lemma EndsFirst(s: Split, e: Env) returns (run: seq<Move>)
    requires Still(s, e) && s.inside == map[] && !s.link.core.cancelTail
    requires s.link.ctrl.state == CtrlStarting && s.link.core.state == GoingUp && s.link.core.queued == {}
    ensures Runs(s, run) && Undisturbed(s, run)
    ensures var u := After(s, run);
      && Still(u, e) && u.inside == map[1 := Caller(CancelCall, false)]
      && u.link.ctrl.state == CtrlDown && u.link.core.state == CoreDown && u.link.core.queued == {}
  {
    run := [];
    More(s, run, Claims(1, Down, e));
    run := run + [Claims(1, Down, e)];
    More(s, run, Other(TimesOut, e));
    run := run + [Other(TimesOut, e)];
    More(s, run, Other(TimeoutEnds, e));
    run := run + [Other(TimeoutEnds, e)];
  }

  lemma NextSession(s: Split, e: Env) returns (run: seq<Move>)
    requires Still(s, e) && s.inside == map[1 := Caller(CancelCall, false)]
    requires s.link.ctrl.state == CtrlDown && s.link.core.state == CoreDown && s.link.core.queued == {}
    ensures Runs(s, run) && Undisturbed(s, run)
    ensures var u := After(s, run);
      && Still(u, e) && u.inside == map[1 := Caller(CancelCall, true)]
      && u.link.ctrl.state == CtrlStarting && !u.link.ctrl.isCanceled
      && (u.link.core.state == GoingUp || u.link.core.state == CoreAn)
  {
    run := [];
    More(s, run, Claims(0, Up, e));
    run := run + [Claims(0, Up, e)];
    More(s, run, Calls(0, e));
    run := run + [Calls(0, e)];
  }

  /** The attempt a down was for has ended and another session has begun when core is called: the new
      session's attempt is canceled. */
  lemma CancelAstray(s: Split, config: Config, e: Env) returns (run: seq<Move>)
    requires Fresh(s) && Still(s, e) && !config.autoneg && (config.settleMs == 0) == (config.checkMs == 0)
    ensures Runs(s, run) && Undisturbed(s, run)
    ensures Ready(After(s, run), Calls(1, e)) && Uncouples(After(s, run), Calls(1, e))
    ensures var l := Moved(After(s, run), Calls(1, e)).link;
      l.ctrl.state == CtrlStarting && !l.ctrl.isCanceled && l.core.state == Canceling
  {
    var a := Attempting(s, config, e);
    var u := After(s, a);
    var b := EndsFirst(u, e);
    var c := NextSession(After(u, b), e);
    Joined(u, b, c);
    Joined(s, a, b + c);
    run := a + (b + c);
  }
}
