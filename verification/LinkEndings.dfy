/** The endings of a session with their four actions apart: waiting for the notification work, setting
    the state DOWN, releasing the waiters, announcing. Between them any call into the control layer and
    any callback of the core layer can come, from other endings too. The cancel work is one work item, so
    its second callback and its next run wait for the ending it is in. */
module LinkEndings {
  import opened Common
  import opened LinkModel
  import opened LinkSession

  // ------------------------------------------------------------------ the four actions

  function Flush(l: Link): Link { l.(log := l.log + [Flushed]) }

  function SetDown(l: Link): Link {
    l.(ctrl := l.ctrl.(state := CtrlDown), log := l.log + [StateDown])
  }

  function Release(l: Link): Link {
    l.(ctrl := l.ctrl.(downComplete := true), log := l.log + [Completed])
  }

  function Announce(l: Link, n: Notif): Link { l.(log := l.log + [Notified(n)]) }

  /** Before a failed attempt ends its session it marks it as stopping; a down or a fault has been marked
      already. */
  function BeforeFlush(state: CtrlState, n: Notif): CtrlState {
    match state
    case CtrlStarting => if n.UpFailNotif? || n.ErrorNotif? then CtrlStopping else state
    case CtrlUp => if n.UpFailNotif? || n.ErrorNotif? then CtrlStopping else state
    case CtrlUpDownReq => if n.UpFailNotif? || n.ErrorNotif? then CtrlStopping else state
    case _ => state
  }

  /** What a step that takes l to l' with ending n has done when it comes to the first action. The
      account counts the ending from here on. */
  function Opened(l: Link, l': Link, n: Notif): Link {
    l'.(ctrl := l'.ctrl.(state := BeforeFlush(l.ctrl.state, n), downComplete := l.ctrl.downComplete), log := l.log)
  }

  // ------------------------------------------------------------------ the machine

  datatype Point = AtFlush | AtDown | AtRelease | AtAnnounce

  /** An ending on its way: what it announces, its next action, the session it ends, whether a link-up has
      found the link DOWN since it began, and whether it belongs to the cancel work. */
  datatype InFlight = InFlight(n: Notif, at: Point, session: nat, crossed: bool, cancel: bool)

  /** What a client learns: the ending and its session, the session that is counted by then, and whether
      the link is DOWN and the waiters are released. */
  datatype Telling = Telling(n: Notif, session: nat, during: nat, crossed: bool, down: bool, released: bool)

  /** `session` counts the link-ups that found the link DOWN; `early` says waiters were released while the
      link was not DOWN. */
  datatype Fine = Fine(
    link: Link, now: int, inFlight: map<nat, InFlight>, session: nat, told: seq<Telling>, early: bool)

  datatype Move = Call(st: Step, t: nat, e: Env) | Go(t: nat)

  predicate CancelWork(st: Step) { st.CancelReports? || st.CancelEnds? }

  predicate Ready(s: Fine, m: Move) {
    match m
    case Call(st, t, e) =>
      && Enabled(World(s.link, s.now), st, e) && t !in s.inFlight
      && (CancelWork(st) ==> forall u :: u in s.inFlight ==> !s.inFlight[u].cancel)
    case Go(t) => t in s.inFlight
  }

  function Crossed(inFlight: map<nat, InFlight>): map<nat, InFlight> {
    map t | t in inFlight :: inFlight[t].(crossed := true)
  }

  function Called(s: Fine, st: Step, t: nat, e: Env): Fine {
    var l' := Effect(s.link, st, e);
    if StartsSession(s.link, st) then
      s.(link := l', now := e.t2, session := s.session + 1, inFlight := Crossed(s.inFlight))
    else match EndingOf(s.link, l')
      case None => s.(link := l', now := e.t2)
      case Some(n) =>
        s.(link := Opened(s.link, l', n), now := e.t2,
           inFlight := s.inFlight[t := InFlight(n, AtFlush, s.session, false, CancelWork(st))])
  }

  function Gone(s: Fine, t: nat): Fine
    requires t in s.inFlight
  {
    var f := s.inFlight[t];
    var l := s.link;
    match f.at
    case AtFlush => s.(link := Flush(l), inFlight := s.inFlight[t := f.(at := AtDown)])
    case AtDown => s.(link := SetDown(l), inFlight := s.inFlight[t := f.(at := AtRelease)])
    case AtRelease =>
      s.(link := Release(l), inFlight := s.inFlight[t := f.(at := AtAnnounce)],
         early := s.early || l.ctrl.state != CtrlDown)
    case AtAnnounce =>
      s.(link := Announce(l, f.n), inFlight := s.inFlight - {t},
         told := s.told + [Telling(f.n, f.session, s.session, f.crossed,
                                   l.ctrl.state == CtrlDown, l.ctrl.downComplete)])
  }

  function Moved(s: Fine, m: Move): Fine
    requires Ready(s, m)
  {
    match m case Call(st, t, e) => Called(s, st, t, e) case Go(t) => Gone(s, t)
  }

  predicate Runs(s: Fine, run: seq<Move>)
    decreases |run|
  {
    run == [] || (Ready(s, run[0]) && Runs(Moved(s, run[0]), run[1..]))
  }

  function AfterAll(s: Fine, run: seq<Move>): Fine
    requires Runs(s, run)
    decreases |run|
  {
    if run == [] then s else AfterAll(Moved(s, run[0]), run[1..])
  }

  predicate Fresh(s: Fine) {
    Initial(World(s.link, s.now)) && s.inFlight == map[] && s.session == 0 && s.told == [] && !s.early
  }

  /** The ending's second action takes down a link whose core is not DOWN. */
  predicate Tears(s: Fine, m: Move) {
    && m.Go? && m.t in s.inFlight && s.inFlight[m.t].at.AtDown?
    && s.link.ctrl.state != CtrlDown && s.link.core.state != CoreDown
  }

  predicate Untorn(s: Fine, run: seq<Move>)
    requires Runs(s, run)
    decreases |run|
  {
    run == [] || (!Tears(s, run[0]) && Untorn(Moved(s, run[0]), run[1..]))
  }

  // ------------------------------------------------------------------ an ending left alone

  /** Its four actions in a row make an ending the one step it is in LinkSession. */
  lemma OpenedFinishes(l: Link, st: Step, e: Env)
    requires !StartsSession(l, st)
    ensures var l' := Effect(l, st, e);
      EndingOf(l, l').Some? ==>
        var n := EndingOf(l, l').value; Announce(Release(SetDown(Flush(Opened(l, l', n)))), n) == l'
  {
    StepTold(l, st, e);
    StepEnds(l, st, e);
    var l' := Effect(l, st, e);
    if EndingOf(l, l').Some? {
      var n := EndingOf(l, l').value;
      assert l.log + [Flushed] + [StateDown] + [Completed] + [Notified(n)] == l.log + Ending(n);
    }
  }

  // ------------------------------------------------------------------ what every untorn run keeps

  /** An ending is on its way to set the state DOWN: core is DOWN and the control layer still stopping. */
  predicate Closing(l: Link) {
    l.ctrl.state == CtrlStopping && l.core.state == CoreDown && l.core.queued == {}
  }

  /** The link with the endings on their way counted as made. */
  function Settled(l: Link): Link {
    if Closing(l) then l.(ctrl := l.ctrl.(state := CtrlDown)) else l
  }

  predicate InOwnSession(s: Fine, f: InFlight) {
    && f.session <= s.session
    && (f.crossed <==> f.session < s.session)
    && (!f.crossed ==>
         && Settled(s.link).ctrl.state == CtrlDown
         && (f.at.AtRelease? || f.at.AtAnnounce? ==> s.link.ctrl.state == CtrlDown)
         && (f.at.AtAnnounce? ==> s.link.ctrl.downComplete))
  }

  predicate ToldRight(g: Telling) {
    && g.session <= g.during
    && (g.crossed <==> g.session < g.during)
    && (!g.crossed ==> g.down && g.released)
  }

  predicate SomeOpen(s: Fine) {
    exists t :: t in s.inFlight && !s.inFlight[t].crossed && (s.inFlight[t].at.AtFlush? || s.inFlight[t].at.AtDown?)
  }

  predicate FineInv(s: Fine) {
    && Inv(World(Settled(s.link), s.now))
    && (forall t :: t in s.inFlight ==> InOwnSession(s, s.inFlight[t]))
    && (forall i :: 0 <= i < |s.told| ==> ToldRight(s.told[i]))
    && (s.link.ctrl.downComplete && s.link.ctrl.state != CtrlDown ==> s.early)
    && (Closing(s.link) ==> SomeOpen(s))
  }

  /** The invariant of LinkSession does not look at the log and the completion. */
  lemma InvIgnores(l: Link, k: Link, now: int)
    requires Inv(World(l, now)) && l.core == k.core && l.acct == k.acct
    requires l.ctrl == k.ctrl.(downComplete := l.ctrl.downComplete)
    ensures Inv(World(k, now))
  {
  }

  /** An ending begins with core DOWN and nothing queued, from a link that is stopping or DOWN. */
  lemma EndingBegins(w: World, st: Step, e: Env)
    requires Inv(w) && Enabled(w, st, e) && EndingOf(w.link, Effect(w.link, st, e)).Some? && !StartsSession(w.link, st)
    ensures var l' := Effect(w.link, st, e); var n := EndingOf(w.link, l').value;
      && l'.core.state == CoreDown && l'.core.queued == {}
      && BeforeFlush(w.link.ctrl.state, n) == (if w.link.ctrl.state == CtrlDown then CtrlDown else CtrlStopping)
  {
  }

  lemma QuietStep(w: World, st: Step, e: Env)
    requires Inv(w) && Enabled(w, st, e) && !StartsSession(w.link, st)
    requires EndingOf(w.link, Effect(w.link, st, e)).None?
    ensures var l' := Effect(w.link, st, e);
      && l'.ctrl.downComplete == w.link.ctrl.downComplete
      && (w.link.ctrl.state == CtrlDown ==> l'.ctrl.state == CtrlDown)
  {
  }

  lemma NotClosing(w: World)
    requires Inv(w)
    ensures !Closing(w.link)
  {
  }

  lemma StartKeeps(s: Fine, st: Step, t: nat, e: Env)
    requires FineInv(s) && Ready(s, Call(st, t, e)) && StartsSession(s.link, st)
    ensures FineInv(Called(s, st, t, e))
  {
    var w := World(s.link, s.now);
    StepKeeps(w, st, e);
    NotClosing(Next(w, (st, e)));
    var s' := Called(s, st, t, e);
    assert !s'.link.ctrl.downComplete;
    forall u | u in s'.inFlight ensures InOwnSession(s', s'.inFlight[u]) {
      assert u in s.inFlight && InOwnSession(s, s.inFlight[u]);
    }
  }

  lemma QuietKeeps(s: Fine, st: Step, t: nat, e: Env)
    requires FineInv(s) && Ready(s, Call(st, t, e)) && !StartsSession(s.link, st) && !Closing(s.link)
    requires EndingOf(s.link, Effect(s.link, st, e)).None?
    ensures FineInv(Called(s, st, t, e))
  {
    var w := World(s.link, s.now);
    StepKeeps(w, st, e);
    NotClosing(Next(w, (st, e)));
    QuietStep(w, st, e);
  }

  lemma OpeningKeeps(s: Fine, st: Step, t: nat, e: Env)
    requires FineInv(s) && Ready(s, Call(st, t, e)) && !StartsSession(s.link, st) && !Closing(s.link)
    requires EndingOf(s.link, Effect(s.link, st, e)).Some?
    ensures FineInv(Called(s, st, t, e))
  {
    var w := World(s.link, s.now);
    StepKeeps(w, st, e);
    EndingBegins(w, st, e);
    StepEnds(s.link, st, e);
    var l' := Effect(s.link, st, e);
    var s' := Called(s, st, t, e);
    InvIgnores(l', Settled(s'.link), e.t2);
    assert t in s'.inFlight && !s'.inFlight[t].crossed && s'.inFlight[t].at.AtFlush?;
    forall u | u in s'.inFlight ensures InOwnSession(s', s'.inFlight[u]) {
      assert u != t ==> u in s.inFlight && InOwnSession(s, s.inFlight[u]);
    }
  }

  /** The second callback of a cancel, made while an ending is on its way to set the state DOWN. */
  lemma ClosingTail(l: Link, now: int, cause: CauseMap, e: Env)
    requires Closing(l) && Inv(World(Settled(l), now)) && Enabled(World(l, now), CancelEnds(cause), e)
    ensures var l', k' := Effect(l, CancelEnds(cause), e), Effect(Settled(l), CancelEnds(cause), e);
      && EndingOf(l, l').Some? && l'.core == k'.core && l'.acct == k'.acct
      && l'.ctrl == k'.ctrl && Closing(Opened(l, l', EndingOf(l, l').value))
  {
  }

  /** What else can be called then: commands that change nothing or the clocks. */
  lemma ClosingQuiet(l: Link, now: int, st: Step, e: Env)
    requires Closing(l) && Inv(World(Settled(l), now)) && Enabled(World(l, now), st, e) && !st.CancelEnds?
    ensures var l', k' := Effect(l, st, e), Effect(Settled(l), st, e);
      if st.Async? || st.SetPolicy? then
        && Closing(l') && Settled(l') == k' && l'.ctrl.downComplete == l.ctrl.downComplete && l'.log == l.log
      else l' == l
  {
  }

  /** The second callback of a cancel joins an ending on its way. */
  lemma JoinKeeps(s: Fine, st: Step, t: nat, e: Env)
    requires FineInv(s) && Ready(s, Call(st, t, e)) && Closing(s.link) && st.CancelEnds?
    ensures FineInv(Called(s, st, t, e))
  {
    ClosingTail(s.link, s.now, st.cause, e);
    var s' := Called(s, st, t, e);
    StepKeeps(World(Settled(s.link), s.now), st, e);
    InvIgnores(Effect(Settled(s.link), st, e), Settled(s'.link), e.t2);
    assert t in s'.inFlight && !s'.inFlight[t].crossed && s'.inFlight[t].at.AtFlush?;
    forall u | u in s'.inFlight ensures InOwnSession(s', s'.inFlight[u]) {
      assert u != t ==> u in s.inFlight && InOwnSession(s, s.inFlight[u]);
    }
  }

  lemma WaitingKeeps(s: Fine, st: Step, t: nat, e: Env)
    requires FineInv(s) && Ready(s, Call(st, t, e)) && Closing(s.link) && !st.CancelEnds?
    ensures FineInv(Called(s, st, t, e))
  {
    ClosingQuiet(s.link, s.now, st, e);
    var k := World(Settled(s.link), s.now);
    if st.Async? || st.SetPolicy? { StepKeeps(k, st, e); } else { StepKeeps(k, Wait, e); }
    var s' := Called(s, st, t, e);
    assert s'.inFlight == s.inFlight && Closing(s'.link);
    forall u | u in s'.inFlight ensures InOwnSession(s', s'.inFlight[u]) {
      assert InOwnSession(s, s.inFlight[u]);
    }
  }

  lemma CallKeeps(s: Fine, st: Step, t: nat, e: Env)
    requires FineInv(s) && Ready(s, Call(st, t, e))
    ensures FineInv(Called(s, st, t, e))
  {
    if Closing(s.link) {
      if st.CancelEnds? { JoinKeeps(s, st, t, e); } else { WaitingKeeps(s, st, t, e); }
    } else if StartsSession(s.link, st) {
      StartKeeps(s, st, t, e);
    } else if EndingOf(s.link, Effect(s.link, st, e)).None? {
      QuietKeeps(s, st, t, e);
    } else {
      OpeningKeeps(s, st, t, e);
    }
  }

  lemma FlushKeeps(s: Fine, t: nat)
    requires FineInv(s) && t in s.inFlight && s.inFlight[t].at.AtFlush?
    ensures FineInv(Gone(s, t))
  {
    var s' := Gone(s, t);
    InvIgnores(Settled(s.link), Settled(s'.link), s.now);
    if Closing(s.link) {
      var u :| u in s.inFlight && !s.inFlight[u].crossed && (s.inFlight[u].at.AtFlush? || s.inFlight[u].at.AtDown?);
      assert u in s'.inFlight && !s'.inFlight[u].crossed && (s'.inFlight[u].at.AtFlush? || s'.inFlight[u].at.AtDown?);
    }
    forall u | u in s'.inFlight ensures InOwnSession(s', s'.inFlight[u]) {
      assert InOwnSession(s, s.inFlight[u]);
    }
  }

  /** Setting the state DOWN when core is DOWN or the state is DOWN already. */
  lemma SetDownKeeps(s: Fine, t: nat)
    requires FineInv(s) && t in s.inFlight && s.inFlight[t].at.AtDown? && !Tears(s, Go(t))
    ensures FineInv(Gone(s, t))
  {
    var s' := Gone(s, t);
    assert s.link.ctrl.state == CtrlDown || Closing(s.link);
    InvIgnores(Settled(s.link), s'.link, s.now);
    forall u | u in s'.inFlight ensures InOwnSession(s', s'.inFlight[u]) {
      assert InOwnSession(s, s.inFlight[u]);
    }
  }

  lemma ReleaseKeeps(s: Fine, t: nat)
    requires FineInv(s) && t in s.inFlight && s.inFlight[t].at.AtRelease?
    ensures FineInv(Gone(s, t))
  {
    var s' := Gone(s, t);
    InvIgnores(Settled(s.link), Settled(s'.link), s.now);
    if Closing(s.link) {
      var u :| u in s.inFlight && !s.inFlight[u].crossed && (s.inFlight[u].at.AtFlush? || s.inFlight[u].at.AtDown?);
      assert u in s'.inFlight && !s'.inFlight[u].crossed && (s'.inFlight[u].at.AtFlush? || s'.inFlight[u].at.AtDown?);
    }
    forall u | u in s'.inFlight ensures InOwnSession(s', s'.inFlight[u]) {
      assert InOwnSession(s, s.inFlight[u]);
    }
  }

  lemma AnnounceKeeps(s: Fine, t: nat)
    requires FineInv(s) && t in s.inFlight && s.inFlight[t].at.AtAnnounce?
    ensures FineInv(Gone(s, t))
  {
    var s' := Gone(s, t);
    InvIgnores(Settled(s.link), Settled(s'.link), s.now);
    assert InOwnSession(s, s.inFlight[t]);
    if Closing(s.link) {
      var u :| u in s.inFlight && !s.inFlight[u].crossed && (s.inFlight[u].at.AtFlush? || s.inFlight[u].at.AtDown?);
      assert u in s'.inFlight && !s'.inFlight[u].crossed && (s'.inFlight[u].at.AtFlush? || s'.inFlight[u].at.AtDown?);
    }
    forall u | u in s'.inFlight ensures InOwnSession(s', s'.inFlight[u]) {
      assert InOwnSession(s, s.inFlight[u]);
    }
  }

  lemma MoveKeeps(s: Fine, m: Move)
    requires FineInv(s) && Ready(s, m) && !Tears(s, m)
    ensures FineInv(Moved(s, m))
  {
    match m
    case Call(st, t, e) => CallKeeps(s, st, t, e);
    case Go(t) =>
      match s.inFlight[t].at
      case AtFlush => FlushKeeps(s, t);
      case AtDown => SetDownKeeps(s, t);
      case AtRelease => ReleaseKeeps(s, t);
      case AtAnnounce => AnnounceKeeps(s, t);
  }

  lemma {:induction false} RunKeeps(s: Fine, run: seq<Move>)
    requires FineInv(s) && Runs(s, run) && Untorn(s, run)
    ensures FineInv(AfterAll(s, run))
    decreases |run|
  {
    if run != [] {
      MoveKeeps(s, run[0]);
      RunKeeps(Moved(s, run[0]), run[1..]);
    }
  }

  lemma FreshInv(s: Fine)
    requires Fresh(s)
    ensures FineInv(s)
  {
    InitialInv(World(s.link, s.now));
  }

  // ------------------------------------------------------------------ the theorems

  /** Whatever comes between the actions of endings, as long as none takes down a link whose core is not
      DOWN: with the endings on their way counted as made the layers are coupled, attempts, tries and
      endings balance and the clocks are in order; and a link waiting to be set DOWN has an ending to do it. */
  lemma InterleavedKeeps(s: Fine, run: seq<Move>)
    requires Fresh(s) && Runs(s, run) && Untorn(s, run)
    ensures var u := AfterAll(s, run);
      && Inv(World(Settled(u.link), u.now))
      && (u.link.ctrl.state == CtrlStopping && u.link.core.state == CoreDown ==> SomeOpen(u))
  {
    FreshInv(s);
    RunKeeps(s, run);
  }

  /** An ending is announced in the session it ends, with the link DOWN and the waiters released, exactly
      when no link-up found the link DOWN since it began. */
  lemma ToldInSession(s: Fine, run: seq<Move>, i: nat)
    requires Fresh(s) && Runs(s, run) && Untorn(s, run) && i < |AfterAll(s, run).told|
    ensures var g := AfterAll(s, run).told[i]; g.session == g.during && g.down && g.released <==> !g.crossed
  {
    FreshInv(s);
    RunKeeps(s, run);
    assert ToldRight(AfterAll(s, run).told[i]);
  }

  /** The waiters are found released while the link is not DOWN only if an ending released them early, and
      that takes a link-up since the ending began. */
  lemma ReleasedEarly(s: Fine, run: seq<Move>, t: nat)
    requires Fresh(s) && Runs(s, run) && Untorn(s, run)
    ensures var u := AfterAll(s, run);
      && (u.link.ctrl.downComplete && u.link.ctrl.state != CtrlDown ==> u.early)
      && (t in u.inFlight && u.inFlight[t].at.AtRelease? && u.link.ctrl.state != CtrlDown ==> u.inFlight[t].crossed)
  {
    FreshInv(s);
    RunKeeps(s, run);
    var u := AfterAll(s, run);
    assert t in u.inFlight ==> InOwnSession(u, u.inFlight[t]);
  }

  /** Setting the state DOWN leaves the layers coupled exactly when it does not take down a link whose
      core is not DOWN, and to do that takes a link-up since the ending began. */
  lemma TearExact(s: Fine, run: seq<Move>, t: nat)
    requires Fresh(s) && Runs(s, run) && Untorn(s, run)
    requires var u := AfterAll(s, run); t in u.inFlight && u.inFlight[t].at.AtDown?
    ensures var u := AfterAll(s, run);
      && (Coupled(Gone(u, t).link) <==> !Tears(u, Go(t)))
      && (Tears(u, Go(t)) ==> u.inFlight[t].crossed)
  {
    FreshInv(s);
    RunKeeps(s, run);
    var u := AfterAll(s, run);
    assert InOwnSession(u, u.inFlight[t]);
  }

  /** A client that makes a link-up only when no ending is on its way, having waited for the
      announcement. */
  predicate Patient(s: Fine, run: seq<Move>)
    requires Runs(s, run)
    decreases |run|
  {
    run == [] ||
    (&& (run[0].Call? && StartsSession(s.link, run[0].st) ==> s.inFlight == map[])
     && Patient(Moved(s, run[0]), run[1..]))
  }

  predicate Uncrossed(s: Fine) {
    && !s.early
    && (forall t :: t in s.inFlight ==> !s.inFlight[t].crossed)
    && (forall i :: 0 <= i < |s.told| ==> !s.told[i].crossed)
  }

  lemma UncrossedMove(s: Fine, m: Move)
    requires FineInv(s) && Uncrossed(s) && Ready(s, m)
    requires m.Call? && StartsSession(s.link, m.st) ==> s.inFlight == map[]
    ensures !Tears(s, m) && Uncrossed(Moved(s, m))
  {
    if m.Go? {
      assert InOwnSession(s, s.inFlight[m.t]);
    }
  }

  lemma {:induction false} PatientRun(s: Fine, run: seq<Move>)
    requires FineInv(s) && Uncrossed(s) && Runs(s, run) && Patient(s, run)
    ensures Untorn(s, run) && Uncrossed(AfterAll(s, run))
    decreases |run|
  {
    if run != [] {
      UncrossedMove(s, run[0]);
      MoveKeeps(s, run[0]);
      PatientRun(Moved(s, run[0]), run[1..]);
    }
  }

  /** For patient clients nothing is torn, the waiters are released only with the link DOWN, and every
      ending is announced in its own session with the link DOWN and the waiters released. */
  lemma PatientClients(s: Fine, run: seq<Move>)
    requires Fresh(s) && Runs(s, run) && Patient(s, run)
    ensures var u := AfterAll(s, run);
      && Untorn(s, run) && Inv(World(Settled(u.link), u.now))
      && (u.link.ctrl.downComplete ==> u.link.ctrl.state == CtrlDown)
      && forall i :: 0 <= i < |u.told| ==>
           u.told[i].session == u.told[i].during && u.told[i].down && u.told[i].released
  {
    FreshInv(s);
    PatientRun(s, run);
    RunKeeps(s, run);
    var u := AfterAll(s, run);
    forall i | 0 <= i < |u.told|
      ensures u.told[i].session == u.told[i].during && u.told[i].down && u.told[i].released
    {
      assert ToldRight(u.told[i]);
    }
  }

  // ------------------------------------------------------------------ clients that do not wait

  lemma FirstOf(a: seq<Move>, b: seq<Move>)
    requires a != []
    ensures (a + b)[0] == a[0] && (a + b)[1..] == a[1..] + b
  {
  }

  lemma {:induction false} Joined(s: Fine, a: seq<Move>, b: seq<Move>)
    requires Runs(s, a) && Untorn(s, a) && Runs(AfterAll(s, a), b) && Untorn(AfterAll(s, a), b)
    ensures Runs(s, a + b) && Untorn(s, a + b) && AfterAll(s, a + b) == AfterAll(AfterAll(s, a), b)
    decreases |a|
  {
    if a == [] {
      assert a + b == b;
    } else {
      FirstOf(a, b);
      Joined(Moved(s, a[0]), a[1..], b);
    }
  }

  lemma One(s: Fine, m: Move)
    requires Ready(s, m) && !Tears(s, m)
    ensures Runs(s, [m]) && Untorn(s, [m]) && AfterAll(s, [m]) == Moved(s, m)
  {
    assert [m][1..] == [];
  }

  lemma More(s: Fine, run: seq<Move>, m: Move)
    requires Runs(s, run) && Untorn(s, run) && Ready(AfterAll(s, run), m) && !Tears(AfterAll(s, run), m)
    ensures Runs(s, run + [m]) && Untorn(s, run + [m]) && AfterAll(s, run + [m]) == Moved(AfterAll(s, run), m)
  {
    One(AfterAll(s, run), m);
    Joined(s, run, [m]);
  }

  /** All that happens in the two runs below happens at one time, with serdes ready. */
  predicate Still(s: Fine, e: Env) {
    s.now == e.t0 == e.t1 == e.t2 && e.serdesReady && e.cause == {}
  }

  /** A first attempt under way with one try granted. */
  predicate Attempting(s: Fine) {
    && s.link.ctrl.state == CtrlStarting && !s.link.ctrl.isCanceled
    && s.link.ctrl.config.triesMax == 1 && s.link.ctrl.clock.attemptCount == 1
    && (s.link.core.state == CoreAn || s.link.core.state == GoingUp) && s.link.core.queued == {}
    && !s.link.core.cancelTail && !s.link.ctrl.downComplete
    && s.inFlight == map[] && s.session == 1 && s.told == []
  }

  lemma FirstAttempt(s: Fine, config: Config, e: Env) returns (run: seq<Move>)
    requires Fresh(s) && Still(s, e) && config.triesMax == 1 && (config.settleMs == 0) == (config.checkMs == 0)
    ensures Runs(s, run) && Untorn(s, run) && Attempting(AfterAll(s, run)) && Still(AfterAll(s, run), e)
  {
    var m0, m1 := Call(SetConfig(config, true), 0, e), Call(Up, 0, e);
    One(s, m0);
    var s1 := Moved(s, m0);
    assert s1.link.core.state == Configured && s1.link.ctrl.config == config && s1.link.ctrl.state == CtrlDown;
    More(s, [m0], m1);
    run := [m0] + [m1];
  }

  /** The attempt has timed out and its ending is about to set the state DOWN. */
  predicate Failing(s: Fine) {
    && s.link.ctrl.state == CtrlStopping && s.link.core.state == CoreDown
    && s.inFlight == map[0 := InFlight(UpFailNotif, AtDown, 1, false, false)] && s.session == 1 && s.told == []
  }

  lemma Given(s: Fine, e: Env)
    requires s.link.core.state == Timeout && s.link.core.queued == {} && s.link.ctrl.state == CtrlStarting
    requires !s.link.ctrl.isCanceled && s.link.ctrl.config.triesMax == 1 && s.link.ctrl.clock.attemptCount == 1
    requires s.inFlight == map[] && s.session == 1 && s.told == [] && Still(s, e)
    ensures var m := Call(TimeoutEnds, 0, e); var u := Moved(s, m);
      && Ready(s, m) && Still(u, e) && u.session == 1 && u.told == []
      && u.link.ctrl.state == CtrlStopping && u.link.core.state == CoreDown
      && u.inFlight == map[0 := InFlight(UpFailNotif, AtFlush, 1, false, false)]
  {
  }

  lemma TimesOutOnce(s: Fine, e: Env) returns (run: seq<Move>)
    requires Attempting(s) && Still(s, e)
    ensures Runs(s, run) && Untorn(s, run) && Failing(AfterAll(s, run)) && Still(AfterAll(s, run), e)
  {
    var m0, m1 := Call(TimesOut, 0, e), Call(TimeoutEnds, 0, e);
    One(s, m0);
    Given(Moved(s, m0), e);
    More(s, [m0], m1);
    run := [m0] + [m1];
    var u := AfterAll(s, run);
    More(s, run, Go(0));
    run := run + [Go(0)];
    assert AfterAll(s, run) == Gone(u, 0);
  }

  lemma NextLinkUp(s: Fine, e: Env) returns (run: seq<Move>)
    requires Failing(s) && Still(s, e)
    ensures Runs(s, run) && Untorn(s, run)
    ensures var u := AfterAll(s, run);
      && u.link.ctrl.state == CtrlStarting && u.link.ctrl.downComplete && u.early
      && u.told == [Telling(UpFailNotif, 1, 2, true, false, true)]
  {
    One(s, Go(0));
    run := [Go(0)];
    More(s, run, Call(Up, 1, e));
    run := run + [Call(Up, 1, e)];
    More(s, run, Go(0));
    run := run + [Go(0)];
    More(s, run, Go(0));
    run := run + [Go(0)];
  }

  /** A link-up made between an ending's setting the state DOWN and its releasing the waiters: the waiters
      of the new session are released while it starts, and the old ending is announced inside it. */
  lemma EndingOvertaken(s: Fine, config: Config, e: Env) returns (run: seq<Move>)
    requires Fresh(s) && Still(s, e) && config.triesMax == 1 && (config.settleMs == 0) == (config.checkMs == 0)
    ensures Runs(s, run) && Untorn(s, run)
    ensures var u := AfterAll(s, run);
      && u.link.ctrl.state == CtrlStarting && u.link.ctrl.downComplete && u.early
      && u.told == [Telling(UpFailNotif, 1, 2, true, false, true)]
  {
    var a := FirstAttempt(s, config, e);
    var u := AfterAll(s, a);
    var b := TimesOutOnce(u, e);
    var c := NextLinkUp(AfterAll(u, b), e);
    Joined(u, b, c);
    Joined(s, a, b + c);
    run := a + (b + c);
  }

  /** A canceled attempt whose first ending has been made, with the second callback still to come. */
  predicate FirstTold(s: Fine) {
    && s.link.ctrl.state == CtrlDown && s.link.core.state == CoreDown && s.link.core.queued == {}
    && s.link.core.cancelTail && s.link.core.downCallback == OnDown && s.inFlight == map[] && s.session == 1
  }

  lemma Canceled(s: Fine, e: Env)
    requires Attempting(s) && Still(s, e)
    ensures var m := Call(Down, 0, e); var u := Moved(s, m);
      && Ready(s, m) && Still(u, e) && u.inFlight == map[] && u.session == 1
      && u.link.ctrl.isCanceled && u.link.ctrl.state == CtrlStopping && u.link.core.state == Canceling
      && u.link.core.queued == {UpCancelWork} && !u.link.core.cancelTail && u.link.core.downCallback == OnDown
  {
  }

  lemma CancelAnswered(s: Fine, e: Env)
    requires Still(s, e) && s.inFlight == map[] && s.session == 1
    requires s.link.ctrl.isCanceled && s.link.ctrl.state == CtrlStopping && s.link.core.state == Canceling
    requires s.link.core.queued == {UpCancelWork} && !s.link.core.cancelTail && s.link.core.downCallback == OnDown
    ensures var m := Call(CancelReports, 0, e); var u := Moved(s, m);
      && Ready(s, m) && Still(u, e) && u.session == 1
      && u.inFlight == map[0 := InFlight(UpFailNotif, AtFlush, 1, false, true)]
      && u.link.ctrl.state == CtrlStopping && u.link.core.state == CoreDown && u.link.core.queued == {}
      && u.link.core.cancelTail && u.link.core.downCallback == OnDown
  {
  }

  /** An ending left alone makes its four actions. */
  lemma FourActions(s: Fine, t: nat) returns (run: seq<Move>)
    requires t in s.inFlight && s.inFlight[t].at.AtFlush?
    requires s.link.ctrl.state == CtrlDown || s.link.core.state == CoreDown
    ensures Runs(s, run) && Untorn(s, run)
    ensures var u := AfterAll(s, run);
      && u.inFlight == s.inFlight - {t} && u.now == s.now && u.session == s.session
      && u.link.core == s.link.core && u.link.ctrl == s.link.ctrl.(state := CtrlDown, downComplete := true)
      && u.link.log == s.link.log + Ending(s.inFlight[t].n)
  {
    One(s, Go(t));
    run := [Go(t)];
    var s1 := AfterAll(s, run);
    More(s, run, Go(t));
    run := run + [Go(t)];
    var s2 := AfterAll(s, run);
    More(s, run, Go(t));
    run := run + [Go(t)];
    var s3 := AfterAll(s, run);
    More(s, run, Go(t));
    run := run + [Go(t)];
    assert s.link.log + [Flushed] + [StateDown] + [Completed] + [Notified(s.inFlight[t].n)]
        == s.link.log + Ending(s.inFlight[t].n);
  }

  lemma CancelsFirst(s: Fine, e: Env) returns (run: seq<Move>)
    requires Attempting(s) && Still(s, e)
    ensures Runs(s, run) && Untorn(s, run) && FirstTold(AfterAll(s, run)) && Still(AfterAll(s, run), e)
  {
    var m0, m1 := Call(Down, 0, e), Call(CancelReports, 0, e);
    Canceled(s, e);
    One(s, m0);
    CancelAnswered(Moved(s, m0), e);
    More(s, [m0], m1);
    run := [m0] + [m1];
    var rest := FourActions(AfterAll(s, run), 0);
    Joined(s, run, rest);
    run := run + rest;
  }

  lemma SecondBegins(s: Fine, e: Env)
    requires FirstTold(s) && Still(s, e)
    ensures var m := Call(CancelEnds({}), 1, e); var u := Moved(s, m);
      && Ready(s, m) && Still(u, e) && u.session == 1
      && u.inFlight == map[1 := InFlight(DownNotif, AtFlush, 1, false, true)]
      && u.link.ctrl.state == CtrlDown && u.link.core.state == CoreDown && u.link.core.queued == {}
  {
  }

  lemma LinkUpBetween(s: Fine, e: Env)
    requires s.link.ctrl.state == CtrlDown && s.link.core.state == CoreDown && s.link.core.queued == {} && Still(s, e)
    requires s.inFlight == map[1 := InFlight(DownNotif, AtDown, 1, false, true)]
    ensures var m := Call(Up, 2, e); var u := Moved(s, m);
      && Ready(s, m) && u.link.ctrl.state == CtrlStarting && AttemptPending(u.link.core)
      && u.inFlight == map[1 := InFlight(DownNotif, AtDown, 1, true, true)]
  {
  }

  lemma LinkUpThenDown(s: Fine, e: Env) returns (run: seq<Move>)
    requires FirstTold(s) && Still(s, e)
    ensures Runs(s, run) && Untorn(s, run) && Ready(AfterAll(s, run), Go(1)) && Tears(AfterAll(s, run), Go(1))
    ensures var l := Moved(AfterAll(s, run), Go(1)).link; l.ctrl.state == CtrlDown && AttemptPending(l.core)
  {
    SecondBegins(s, e);
    One(s, Call(CancelEnds({}), 1, e));
    run := [Call(CancelEnds({}), 1, e)];
    More(s, run, Go(1));
    run := run + [Go(1)];
    LinkUpBetween(AfterAll(s, run), e);
    More(s, run, Call(Up, 2, e));
    run := run + [Call(Up, 2, e)];
  }

  /** A link-up made while the second ending of a cancel is on its way is taken down behind core's back:
      the control layer is DOWN and core goes on with the attempt. */
  lemma TornDown(s: Fine, config: Config, e: Env) returns (run: seq<Move>)
    requires Fresh(s) && Still(s, e) && config.triesMax == 1 && (config.settleMs == 0) == (config.checkMs == 0)
    ensures Runs(s, run) && Untorn(s, run) && Ready(AfterAll(s, run), Go(1)) && Tears(AfterAll(s, run), Go(1))
    ensures var l := Moved(AfterAll(s, run), Go(1)).link; l.ctrl.state == CtrlDown && AttemptPending(l.core)
  {
    var a := FirstAttempt(s, config, e);
    var u := AfterAll(s, a);
    var b := CancelsFirst(u, e);
    var c := LinkUpThenDown(AfterAll(u, b), e);
    Joined(u, b, c);
    Joined(s, a, b + c);
    run := a + (b + c);
  }
}
