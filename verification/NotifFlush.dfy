/** Waiting for the notification work. Any number of threads wait beside the producers, clients and the
    work item of NotifProtocol. A wait covers the run of the work that is pending when it begins, or else
    the run that is on; with neither it is over at once. */
module NotifFlush {
  import opened Common
  import opened NotifRegistry
  import opened NotifProtocol
  import LinkModel
  import LinkSession
  import LinkTheorems

  /** What a wait still waits for: a pending run to start, the run that is on to end, nothing. */
  datatype Phase = ToStart | ToEnd | Over

  /** `began` counts the calls completed when the wait began. */
  datatype Flush = Flush(began: nat, phase: Phase)

  /** A completed call, in order: an enqueue with the place of its message among those accepted, or a
      wait. */
  datatype Done = Enqueued(i: nat) | FlushDone(began: nat)

  /** `place` is where each producer between its put and its queue_work put its message. */
  datatype Ext = Ext(s: State, place: map<nat, nat>, flushes: map<nat, Flush>, calls: seq<Done>)

  datatype Move = Base(st: Step) | FlushStart(f: nat) | FlushEnd(f: nat)

  predicate Ready(x: Ext, m: Move) {
    match m
    case Base(st) => Enabled(x.s, st) && (st.QueueWork? ==> st.p in x.place)
    case FlushStart(f) => f !in x.flushes
    case FlushEnd(f) => f in x.flushes && x.flushes[f].phase.Over?
  }

  function AdvancedPhase(phase: Phase, st: Step): Phase {
    if st.Start? && phase.ToStart? then ToEnd
    else if st.End? && phase.ToEnd? then Over
    else phase
  }

  /** The waits when the work starts, or ends. */
  function Advanced(flushes: map<nat, Flush>, st: Step): map<nat, Flush> {
    map f | f in flushes :: flushes[f].(phase := AdvancedPhase(flushes[f].phase, st))
  }

  function PhaseAt(s: State): Phase {
    if s.pending then ToStart else if s.worker != Idle then ToEnd else Over
  }

  function Moved(x: Ext, m: Move): Ext
    requires Ready(x, m)
  {
    match m
    case FlushStart(f) => x.(flushes := x.flushes[f := Flush(|x.calls|, PhaseAt(x.s))])
    case FlushEnd(f) => x.(flushes := x.flushes - {f}, calls := x.calls + [FlushDone(x.flushes[f].began)])
    case Base(st) =>
      var x' := x.(s := Next(x.s, st), flushes := Advanced(x.flushes, st));
      match st
      case Put(p) =>
        if |x.s.fifo| >= x.s.capacity then x' else x'.(place := x.place[p := |x.s.accepted|])
      case QueueWork(p) => x'.(place := x.place - {p}, calls := x.calls + [Enqueued(x.place[p])])
      case _ => x'
  }

  predicate Runs(x: Ext, run: seq<Move>)
    decreases |run|
  {
    run == [] || (Ready(x, run[0]) && Runs(Moved(x, run[0]), run[1..]))
  }

  function AfterAll(x: Ext, run: seq<Move>): Ext
    requires Runs(x, run)
    decreases |run|
  {
    if run == [] then x else AfterAll(Moved(x, run[0]), run[1..])
  }

  predicate Fresh(x: Ext) { Initial(x.s) && x.place == map[] && x.flushes == map[] && x.calls == [] }

  // ------------------------------------------------------------------ what every run keeps

  predicate HandedOut(s: State, i: nat) { i < |s.handled| }

  /** The run of the work that is on will look at the queue again. */
  predicate WillLook(w: Worker) { w.Started? || w.AtRead? || w.Handing? || w.AtLook? }

  /** A message whose enqueue is complete is handed out or has a run of the work coming for it. */
  predicate Coming(s: State, i: nat) {
    i < |s.accepted| && (HandedOut(s, i) || s.pending || WillLook(s.worker))
  }

  /** A wait whose run of the work is still to come or on. */
  predicate Waits(s: State, phase: Phase) {
    || (phase.ToStart? && s.pending)
    || (phase.ToEnd? && s.worker != Idle)
    || phase.Over?
  }

  /** What a wait in this phase has to do with a message enqueued before it. */
  predicate Covers(s: State, phase: Phase, i: nat) {
    HandedOut(s, i) || phase.ToStart? || (phase.ToEnd? && WillLook(s.worker))
  }

  predicate Covered(x: Ext, fl: Flush) {
    && fl.began <= |x.calls|
    && Waits(x.s, fl.phase)
    && forall k :: 0 <= k < fl.began && x.calls[k].Enqueued? ==> Covers(x.s, fl.phase, x.calls[k].i)
  }

  /** Messages enqueued before a completed wait began are handed out. */
  predicate Flushed(x: Ext, j: nat)
    requires j < |x.calls| && x.calls[j].FlushDone?
  {
    && x.calls[j].began <= j
    && forall k :: 0 <= k < x.calls[j].began && x.calls[k].Enqueued? ==> HandedOut(x.s, x.calls[k].i)
  }

  predicate FlushInv(x: Ext) {
    && Inv(x.s)
    && (forall p :: p in x.place ==> x.place[p] < |x.s.accepted|)
    && (forall k :: 0 <= k < |x.calls| && x.calls[k].Enqueued? ==> Coming(x.s, x.calls[k].i))
    && (forall f :: f in x.flushes ==> Covered(x, x.flushes[f]))
    && (forall j :: 0 <= j < |x.calls| && x.calls[j].FlushDone? ==> Flushed(x, j))
  }

  lemma {:induction false} MessagesCounted(handled: seq<(Msg, seq<Entry>)>)
    ensures |Messages(handled)| == |handled|
  {
    if handled != [] {
      MessagesCounted(handled[..|handled| - 1]);
    }
  }

  lemma {:induction false} MessageAt(handled: seq<(Msg, seq<Entry>)>, i: nat)
    requires i < |handled|
    ensures |Messages(handled)| == |handled| && Messages(handled)[i] == handled[i].0
  {
    MessagesCounted(handled);
    MessagesCounted(handled[..|handled| - 1]);
    if i < |handled| - 1 {
      MessageAt(handled[..|handled| - 1], i);
    }
  }

  /** A step hands out no message twice and loses none that is accepted. */
  lemma NotLess(s: State, st: Step)
    requires Enabled(s, st)
    ensures |s.handled| <= |Next(s, st).handled| && |s.accepted| <= |Next(s, st).accepted|
  {
  }

  lemma ComingStays(s: State, st: Step, i: nat)
    requires Inv(s) && Enabled(s, st) && Coming(s, i)
    ensures Coming(Next(s, st), i)
  {
    MessagesCounted(s.handled);
  }

  lemma CoversStays(s: State, phase: Phase, st: Step, i: nat)
    requires Inv(s) && Enabled(s, st) && Waits(s, phase) && i < |s.accepted| && Covers(s, phase, i)
    ensures Covers(Next(s, st), AdvancedPhase(phase, st), i)
  {
    MessagesCounted(s.handled);
  }

  lemma WaitsStays(s: State, phase: Phase, st: Step)
    requires Inv(s) && Enabled(s, st) && Waits(s, phase)
    ensures Waits(Next(s, st), AdvancedPhase(phase, st))
  {
  }

  lemma PlaceStays(x: Ext, st: Step)
    requires FlushInv(x) && Ready(x, Base(st))
    ensures var x' := Moved(x, Base(st));
      && (forall p :: p in x'.place ==> x'.place[p] < |x'.s.accepted|)
      && x.calls <= x'.calls
      && (forall k :: |x.calls| <= k < |x'.calls| ==> x'.calls[k].Enqueued? && Coming(x'.s, x'.calls[k].i))
  {
  }

  lemma BaseKeeps(x: Ext, st: Step)
    requires FlushInv(x) && Ready(x, Base(st))
    ensures FlushInv(Moved(x, Base(st)))
  {
    var x' := Moved(x, Base(st));
    StepKeeps(x.s, st);
    NotLess(x.s, st);
    PlaceStays(x, st);
    forall k | 0 <= k < |x'.calls| && x'.calls[k].Enqueued? ensures Coming(x'.s, x'.calls[k].i) {
      if k < |x.calls| { ComingStays(x.s, st, x.calls[k].i); }
    }
    forall f | f in x'.flushes ensures Covered(x', x'.flushes[f]) {
      assert Covered(x, x.flushes[f]);
      WaitsStays(x.s, x.flushes[f].phase, st);
      forall k | 0 <= k < x.flushes[f].began && x'.calls[k].Enqueued?
        ensures Covers(x'.s, x'.flushes[f].phase, x'.calls[k].i)
      {
        CoversStays(x.s, x.flushes[f].phase, st, x.calls[k].i);
      }
    }
    forall j | 0 <= j < |x'.calls| && x'.calls[j].FlushDone? ensures Flushed(x', j) {
      assert Flushed(x, j);
    }
  }

  /** With nothing pending and no run on, every enqueued message is handed out. */
  lemma FlushStartKeeps(x: Ext, f: nat)
    requires FlushInv(x) && Ready(x, FlushStart(f))
    ensures FlushInv(Moved(x, FlushStart(f)))
  {
    var x' := Moved(x, FlushStart(f));
    MessagesCounted(x.s.handled);
    forall g | g in x'.flushes ensures Covered(x', x'.flushes[g]) {
      if g != f { assert Covered(x, x.flushes[g]); }
    }
    forall j | 0 <= j < |x'.calls| && x'.calls[j].FlushDone? ensures Flushed(x', j) {
      assert Flushed(x, j);
    }
  }

  lemma FlushEndKeeps(x: Ext, f: nat)
    requires FlushInv(x) && Ready(x, FlushEnd(f))
    ensures FlushInv(Moved(x, FlushEnd(f)))
  {
    var x' := Moved(x, FlushEnd(f));
    assert Covered(x, x.flushes[f]);
    forall g | g in x'.flushes ensures Covered(x', x'.flushes[g]) {
      assert Covered(x, x.flushes[g]);
    }
    forall j | 0 <= j < |x'.calls| && x'.calls[j].FlushDone? ensures Flushed(x', j) {
      if j < |x.calls| { assert Flushed(x, j); }
    }
  }

  lemma {:induction false} RunKeeps(x: Ext, run: seq<Move>)
    requires FlushInv(x) && Runs(x, run)
    ensures FlushInv(AfterAll(x, run))
    decreases |run|
  {
    if run != [] {
      match run[0] {
        case Base(st) => BaseKeeps(x, st);
        case FlushStart(f) => FlushStartKeeps(x, f);
        case FlushEnd(f) => FlushEndKeeps(x, f);
      }
      RunKeeps(Moved(x, run[0]), run[1..]);
    }
  }

  lemma FreshInv(x: Ext)
    requires Fresh(x)
    ensures FlushInv(x)
  {
    InitialInv(x.s);
  }

  // ------------------------------------------------------------------ the theorems

  /** When a wait is over, every message whose producer had queued the work before the wait began has been
      handed out. */
  lemma FlushHandsOut(x: Ext, run: seq<Move>, k: nat, j: nat)
    requires Fresh(x) && Runs(x, run)
    requires var u := AfterAll(x, run);
      && j < |u.calls| && u.calls[j].FlushDone? && u.calls[j].began <= |u.calls|
      && k < u.calls[j].began && u.calls[k].Enqueued?
    ensures var u := AfterAll(x, run); var i := u.calls[k].i;
      i < |u.s.handled| && i < |u.s.accepted| && u.s.handled[i].0 == u.s.accepted[i]
  {
    FreshInv(x);
    RunKeeps(x, run);
    var u := AfterAll(x, run);
    assert Flushed(u, j);
    MessageAt(u.s.handled, u.calls[k].i);
    assert Messages(u.s.handled) <= u.s.accepted;
  }

  lemma {:induction false} WaitsEnd(x: Ext) returns (run: seq<Move>)
    requires FlushInv(x)
    ensures Runs(x, run) && (forall k :: 0 <= k < |run| ==> run[k].Base? && WorkerStep(run[k].st))
    ensures var u := AfterAll(x, run);
      && u.calls == x.calls && u.s.accepted == x.s.accepted && u.flushes.Keys == x.flushes.Keys
      && forall f :: f in u.flushes ==> u.flushes[f].phase.Over? && u.flushes[f].began == x.flushes[f].began
    decreases WorkLeft(x.s)
  {
    run := [];
    if WorkerNext(x.s).Some? {
      var st := WorkerNext(x.s).value;
      WorkerProgress(x.s);
      BaseKeeps(x, st);
      var rest := WaitsEnd(Moved(x, Base(st)));
      run := [Base(st)] + rest;
      assert run[1..] == rest;
    } else {
      forall f | f in x.flushes ensures x.flushes[f].phase.Over? {
        assert Covered(x, x.flushes[f]);
      }
    }
  }

  /** No wait needs anything but the work item to go on: left alone it brings every wait to its end. */
  lemma FlushReturns(x: Ext, before: seq<Move>) returns (run: seq<Move>)
    requires Fresh(x) && Runs(x, before)
    ensures var u := AfterAll(x, before);
      && Runs(u, run) && (forall k :: 0 <= k < |run| ==> run[k].Base? && WorkerStep(run[k].st))
      && forall f :: f in u.flushes ==> Ready(AfterAll(u, run), FlushEnd(f))
  {
    FreshInv(x);
    RunKeeps(x, before);
    run := WaitsEnd(AfterAll(x, before));
  }

  lemma {:induction false} More(x: Ext, run: seq<Move>, m: Move)
    requires Runs(x, run) && Ready(AfterAll(x, run), m)
    ensures Runs(x, run + [m]) && AfterAll(x, run + [m]) == Moved(AfterAll(x, run), m)
    decreases |run|
  {
    if run == [] {
      assert [] + [m] == [m] && [m][1..] == [];
    } else {
      assert (run + [m])[0] == run[0] && (run + [m])[1..] == run[1..] + [m];
      More(Moved(x, run[0]), run[1..], m);
    }
  }

  /** A message put without the work being queued is not waited for. */
  lemma NotYetQueued(x: Ext, m: Msg) returns (run: seq<Move>)
    requires Fresh(x)
    ensures Runs(x, run)
    ensures var u := AfterAll(x, run);
      u.s.accepted == [m] && u.calls == [FlushDone(0)] && u.s.handled == [] && u.s.fifo == [m]
  {
    run := [];
    More(x, run, Base(LookFull(0, m)));
    run := run + [Base(LookFull(0, m))];
    More(x, run, Base(Put(0)));
    run := run + [Base(Put(0))];
    More(x, run, FlushStart(0));
    run := run + [FlushStart(0)];
    More(x, run, FlushEnd(0));
    run := run + [FlushEnd(0)];
  }

  lemma {:induction false} Joined(x: Ext, a: seq<Move>, b: seq<Move>)
    requires Runs(x, a) && Runs(AfterAll(x, a), b)
    ensures Runs(x, a + b) && AfterAll(x, a + b) == AfterAll(AfterAll(x, a), b)
    decreases |a|
  {
    if a == [] {
      assert a + b == b;
    } else {
      assert (a + b)[0] == a[0] && (a + b)[1..] == a[1..] + b;
      Joined(Moved(x, a[0]), a[1..], b);
    }
  }

  // ------------------------------------------------------------------ the waits of a link's endings

  /** The entries of a link's log from `from` on as calls: `at[k]` is the call entry k made, if it made one
      and the queue took it. The link makes its entries one after the other. */
  predicate Carries(x: Ext, log: seq<LinkModel.Event>, from: nat, at: seq<Option<nat>>, msg: LinkModel.Notif -> Msg) {
    && |at| == |log|
    && (forall k :: from <= k < |log| && at[k].Some? ==>
          && at[k].value < |x.calls|
          && (match log[k]
              case Notified(n) =>
                x.calls[at[k].value].Enqueued?
                && (x.calls[at[k].value].i < |x.s.accepted| ==> x.s.accepted[x.calls[at[k].value].i] == msg(n))
              case Flushed => x.calls[at[k].value].FlushDone?
              case _ => false))
    && (forall a, b :: from <= a < b < |log| && at[a].Some? && at[b].Some? && log[b].Flushed? ==>
          at[a].value < x.calls[at[b].value].began)
  }

  lemma EnqueuedThenWaits(x: Ext, m: Msg) returns (run: seq<Move>)
    requires Fresh(x)
    ensures Runs(x, run)
    ensures var u := AfterAll(x, run);
      u.s.accepted == [m] && u.calls == [Enqueued(0)] && u.flushes == map[0 := Flush(1, ToStart)]
  {
    run := [];
    More(x, run, Base(LookFull(0, m)));
    run := run + [Base(LookFull(0, m))];
    More(x, run, Base(Put(0)));
    run := run + [Base(Put(0))];
    More(x, run, Base(QueueWork(0)));
    run := run + [Base(QueueWork(0))];
    More(x, run, FlushStart(0));
    run := run + [FlushStart(0)];
  }

  /** A message put and queued for, and a wait after it, as entries of a log. */
  lemma Queued(x: Ext, m: Msg) returns (run: seq<Move>)
    requires Fresh(x)
    ensures Runs(x, run)
    ensures var u := AfterAll(x, run);
      && u.s.accepted == [m] && u.calls == [Enqueued(0), FlushDone(1)] && u.s.handled != [] && u.s.handled[0].0 == m
      && Carries(u, [LinkModel.Notified(LinkModel.LinkUpNotif), LinkModel.Flushed], 0, [Some(0), Some(1)], _ => m)
  {
    run := EnqueuedThenWaits(x, m);
    FreshInv(x);
    RunKeeps(x, run);
    var rest := WaitsEnd(AfterAll(x, run));
    Joined(x, run, rest);
    run := run + rest;
    More(x, run, FlushEnd(0));
    run := run + [FlushEnd(0)];
    FlushHandsOut(x, run, 0, 1);
  }

  /** Where LINK_UP comes first and endings wait, LINK_UP is handed out once an ending's wait is over. */
  lemma HandedOutFirst(x: Ext, run: seq<Move>, log: seq<LinkModel.Event>, from: nat, at: seq<Option<nat>>,
                       msg: LinkModel.Notif -> Msg, a: nat, b: nat)
    requires Fresh(x) && Runs(x, run) && Carries(AfterAll(x, run), log, from, at, msg)
    requires LinkTheorems.LinkUpFirst(log, from) && LinkTheorems.EndingsWait(log, from)
    requires from <= a < |log| && log[a] == LinkModel.Notified(LinkModel.LinkUpNotif) && at[a].Some?
    requires from <= b < |log| && log[b].Notified? && LinkModel.Terminal(log[b].n) && b >= 3 && at[b - 3].Some?
    ensures var u := AfterAll(x, run); var i := u.calls[at[a].value].i;
      i < |u.s.handled| && u.s.handled[i].0 == msg(LinkModel.LinkUpNotif)
  {
    FreshInv(x);
    RunKeeps(x, run);
    assert Flushed(AfterAll(x, run), at[b - 3].value);
    FlushHandsOut(x, run, at[a].value, at[b - 3].value);
  }

  /** In a session, once the wait of its ending is over the clients have been called with LINK_UP: it is
      handed out before the ending is announced. */
  lemma LinkUpHandedOut(w0: LinkSession.World, before: LinkTheorems.Run, e: LinkModel.Env, steps: LinkTheorems.Run,
                        x: Ext, run: seq<Move>, at: seq<Option<nat>>, msg: LinkModel.Notif -> Msg, a: nat, b: nat)
    requires LinkSession.Initial(w0) && LinkSession.Follows(w0, before)
    requires LinkSession.Enabled(LinkSession.After(w0, before), LinkSession.Up, e)
    requires LinkModel.LinkUp(LinkSession.After(w0, before).link, e).1 == LinkModel.Ok
    requires var w := LinkSession.Next(LinkSession.After(w0, before), (LinkSession.Up, e));
      && LinkSession.Follows(w, steps) && LinkTheorems.OneSession(w, steps)
      && var log := LinkSession.After(w, steps).link.log;
         && Fresh(x) && Runs(x, run) && Carries(AfterAll(x, run), log, |w.link.log|, at, msg)
         && |w.link.log| <= a < |log| && log[a] == LinkModel.Notified(LinkModel.LinkUpNotif) && at[a].Some?
         && |w.link.log| <= b < |log| && log[b].Notified? && LinkModel.Terminal(log[b].n)
    ensures 3 <= b < |at| && a < |at|
    ensures at[b - 3].Some? ==>
      var u := AfterAll(x, run); var i := u.calls[at[a].value].i;
      i < |u.s.handled| && u.s.handled[i].0 == msg(LinkModel.LinkUpNotif)
  {
    LinkTheorems.LinkUpBeforeFlush(w0, before, e, steps);
    if at[b - 3].Some? {
      var w := LinkSession.Next(LinkSession.After(w0, before), (LinkSession.Up, e));
      HandedOutFirst(x, run, LinkSession.After(w, steps).link.log, |w.link.log|, at, msg, a, b);
    }
  }
}
