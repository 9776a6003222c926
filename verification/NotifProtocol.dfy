/** The notification queue under every interleaving: any number of producers, clients that register
    and unregister, and the work item, at the granularity of the driver's lock sections. The work item
    does not run twice at once but can be queued again while it runs. */
module NotifProtocol {
  import opened Common
  import opened NotifRegistry

  /** A producer between its look at the queue and its put, and between its put and its queue_work. */
  datatype Producer = Looked(m: Msg) | HasPut

  datatype Worker =
    | Idle | Started | AtRead | Handing(m: Msg, next: nat) | AtLook | AtEnd

  /** `accepted`, `handled`, `frozen` and `log` are history: the messages put, those handed out with
      the registry they were handed out against, the registry as the current pass found it, and the
      callbacks made. */
  datatype State = State(
    capacity: nat,
    fifo: seq<Msg>,
    entries: seq<Entry>,
    sending: bool,
    pending: bool,
    worker: Worker,
    producers: map<nat, Producer>,
    accepted: seq<Msg>,
    handled: seq<(Msg, seq<Entry>)>,
    frozen: seq<Entry>,
    log: seq<Delivery>)

  datatype Step =
    | LookFull(p: nat, m: Msg) | Put(p: nat) | QueueWork(p: nat)
    | Start | SetSending | Read | Slot | LookEmpty | End
    | Reg(callback: Option<nat>, types: TypeMap, tag: nat)
    | Unreg(callback: Option<nat>, types: TypeMap)
    | RegGivesUp

  predicate Enabled(s: State, st: Step) {
    match st
    case LookFull(p, _) => p !in s.producers
    case Put(p) => p in s.producers && s.producers[p].Looked?
    case QueueWork(p) => p in s.producers && s.producers[p].HasPut?
    case Start => s.pending && s.worker.Idle?
    case SetSending => s.worker.Started?
    case Read => s.worker.AtRead?
    case Slot => s.worker.Handing?
    case LookEmpty => s.worker.AtLook?
    case End => s.worker.AtEnd?
    case _ => true
  }

  function Next(s: State, st: Step): State
    requires Enabled(s, st)
  {
    match st
    case LookFull(p, m) =>
      if |s.fifo| >= s.capacity then s else s.(producers := s.producers[p := Looked(m)])
    case Put(p) =>
      if |s.fifo| >= s.capacity then s.(producers := s.producers - {p})
      else s.(fifo := s.fifo + [s.producers[p].m], accepted := s.accepted + [s.producers[p].m],
              producers := s.producers[p := HasPut])
    case QueueWork(p) => s.(pending := true, producers := s.producers - {p})
    case Start => s.(pending := false, worker := Started)
    case SetSending => s.(sending := true, worker := AtRead, frozen := s.entries)
    case Read =>
      if s.fifo == [] then s.(worker := AtEnd)
      else s.(fifo := s.fifo[1..], worker := Handing(s.fifo[0], 0))
    case Slot =>
      var m, i := s.worker.m, s.worker.next;
      if i < |s.entries| then
        var s' := s.(worker := Handing(m, i + 1));
        if Wants(s.entries[i], m)
        then s'.(log := s.log + [Delivery(i, s.entries[i].callback, s.entries[i].tag, m)])
        else s'
      else s.(worker := AtLook, handled := s.handled + [(m, s.frozen)])
    case LookEmpty => s.(worker := if s.fifo == [] then AtEnd else AtRead)
    case End => s.(sending := false, worker := Idle)
    case Reg(callback, types, tag) =>
      if callback.None? || s.sending then s
      else s.(entries := Registered(s.entries, callback, types, tag).0)
    case Unreg(callback, types) =>
      if callback.None? || s.sending then s
      else s.(entries := Unregistered(s.entries, callback, types))
    case RegGivesUp => s
  }

  predicate Follows(s: State, run: seq<Step>)
    decreases |run|
  {
    run == [] || (Enabled(s, run[0]) && Follows(Next(s, run[0]), run[1..]))
  }

  function After(s: State, run: seq<Step>): State
    requires Follows(s, run)
    decreases |run|
  {
    if run == [] then s else After(Next(s, run[0]), run[1..])
  }

  predicate Initial(s: State) {
    && s.capacity > 0 && s.fifo == [] && s.entries == seq(REG_COUNT, _ => CLEARED)
    && !s.sending && !s.pending && s.worker == Idle && s.producers == map[]
    && s.accepted == [] && s.handled == [] && s.log == []
  }

  // ------------------------------------------------------------------ what every run keeps

  function Messages(handled: seq<(Msg, seq<Entry>)>): seq<Msg> {
    if handled == [] then [] else Messages(handled[..|handled| - 1]) + [handled[|handled| - 1].0]
  }

  /** The callbacks that handing out these messages, each against its registry, makes. */
  function Handouts(handled: seq<(Msg, seq<Entry>)>): seq<Delivery> {
    if handled == [] then []
    else
      var (m, es) := handled[|handled| - 1];
      Handouts(handled[..|handled| - 1]) + Handed(m, es, |es|)
  }

  function InHand(s: State): seq<Msg> {
    if s.worker.Handing? then [s.worker.m] else []
  }

  predicate InPass(w: Worker) { w.AtRead? || w.Handing? || w.AtLook? || w.AtEnd? }

  /** The registry stands still during a pass. */
  predicate Frozen(s: State) {
    && |s.entries| == REG_COUNT
    && (s.sending <==> InPass(s.worker))
    && (s.sending ==> s.entries == s.frozen)
    && (s.worker.Handing? ==> s.worker.next <= REG_COUNT)
  }

  /** Every accepted message is handed out, in hand, or still queued, in this order. */
  predicate InOrder(s: State) {
    s.accepted == Messages(s.handled) + InHand(s) + s.fifo
  }

  /** The callbacks made are those due, none twice and none missing. */
  predicate Delivered(s: State) {
    s.log == Handouts(s.handled)
             + (if s.worker.Handing? && s.worker.next <= |s.entries|
                then Handed(s.worker.m, s.entries, s.worker.next) else [])
  }

  /** A non-empty queue has somebody coming for it. */
  predicate Attended(s: State) {
    s.fifo != [] ==>
      || s.pending
      || s.worker.Started? || s.worker.AtRead? || s.worker.Handing? || s.worker.AtLook?
      || exists p :: p in s.producers && s.producers[p].HasPut?
  }

  /** No slot that asks for a type lacks a callback. */
  predicate Callable(s: State) {
    && (forall i :: 0 <= i < |s.entries| && s.entries[i].types != {} ==> s.entries[i].callback.Some?)
    && (forall k :: 0 <= k < |s.log| ==> s.log[k].callback.Some?)
  }

  predicate Inv(s: State) {
    Frozen(s) && InOrder(s) && Delivered(s) && Attended(s) && Callable(s) && |s.fifo| <= s.capacity
  }

  lemma InitialInv(s: State)
    requires Initial(s)
    ensures Inv(s)
  {
  }

  lemma MoreHandled(handled: seq<(Msg, seq<Entry>)>, m: Msg, es: seq<Entry>)
    ensures Messages(handled + [(m, es)]) == Messages(handled) + [m]
    ensures Handouts(handled + [(m, es)]) == Handouts(handled) + Handed(m, es, |es|)
  {
    assert (handled + [(m, es)])[..|handled|] == handled;
  }

  lemma PutKeeps(s: State, p: nat)
    requires Inv(s) && Enabled(s, Put(p))
    ensures Inv(Next(s, Put(p)))
  {
    var s' := Next(s, Put(p));
    if |s.fifo| < s.capacity {
      assert p in s'.producers && s'.producers[p].HasPut?;
      assert InOrder(s');
    } else {
      assert Attended(s') by {
        if q: nat :| q in s.producers && s.producers[q].HasPut? { assert q in s'.producers; }
      }
    }
  }

  lemma LookFullKeeps(s: State, p: nat, m: Msg)
    requires Inv(s) && Enabled(s, LookFull(p, m))
    ensures Inv(Next(s, LookFull(p, m)))
  {
    var s' := Next(s, LookFull(p, m));
    assert Attended(s') by {
      if q: nat :| q in s.producers && s.producers[q].HasPut? { assert q in s'.producers; }
    }
  }

  lemma LastSlotKeeps(s: State)
    requires Inv(s) && s.worker.Handing? && s.worker.next == |s.entries|
    ensures Inv(Next(s, Slot))
  {
    MoreHandled(s.handled, s.worker.m, s.frozen);
  }

  lemma SlotDelivers(s: State)
    requires Inv(s) && s.worker.Handing? && s.worker.next < |s.entries|
    ensures var i := s.worker.next;
            Next(s, Slot).log == Handouts(s.handled) + Handed(s.worker.m, s.entries, i + 1)
  {
    var i := s.worker.next;
    var here := if Wants(s.entries[i], s.worker.m)
                then [Delivery(i, s.entries[i].callback, s.entries[i].tag, s.worker.m)] else [];
    assert Handed(s.worker.m, s.entries, i + 1) == Handed(s.worker.m, s.entries, i) + here;
    assert Next(s, Slot).log == s.log + here;
  }

  lemma SlotCallable(s: State)
    requires Inv(s) && s.worker.Handing? && s.worker.next < |s.entries|
    ensures Callable(Next(s, Slot))
  {
    var e := s.entries[s.worker.next];
    assert Wants(e, s.worker.m) ==> e.types != {};
  }

  lemma SlotRest(s: State)
    requires Inv(s) && s.worker.Handing? && s.worker.next < |s.entries|
    ensures var s' := Next(s, Slot);
            && Frozen(s') && InOrder(s') && Attended(s') && |s'.fifo| <= s'.capacity
            && s'.handled == s.handled && s'.entries == s.entries
            && s'.worker == Handing(s.worker.m, s.worker.next + 1)
  {
  }

  lemma SlotKeeps(s: State)
    requires Inv(s) && Enabled(s, Slot)
    ensures Inv(Next(s, Slot))
  {
    if s.worker.next == |s.entries| {
      LastSlotKeeps(s);
    } else {
      SlotDelivers(s);
      SlotCallable(s);
      SlotRest(s);
    }
  }

  lemma EditKeeps(s: State, st: Step)
    requires Inv(s) && (st.Reg? || st.Unreg?)
    ensures Inv(Next(s, st))
  {
  }

  lemma WorkerKeeps(s: State, st: Step)
    requires Inv(s) && Enabled(s, st)
    requires st.Start? || st.SetSending? || st.Read? || st.LookEmpty? || st.End? || st.QueueWork? || st.RegGivesUp?
    ensures Inv(Next(s, st))
  {
  }

  lemma StepKeeps(s: State, st: Step)
    requires Inv(s) && Enabled(s, st)
    ensures Inv(Next(s, st))
  {
    match st
    case LookFull(p, m) => LookFullKeeps(s, p, m);
    case Put(p) => PutKeeps(s, p);
    case Slot => SlotKeeps(s);
    case Reg(_, _, _) => EditKeeps(s, st);
    case Unreg(_, _) => EditKeeps(s, st);
    case _ => WorkerKeeps(s, st);
  }

  lemma {:induction false} RunKeeps(s: State, run: seq<Step>)
    requires Inv(s) && Follows(s, run)
    ensures Inv(After(s, run))
    decreases |run|
  {
    if run != [] {
      StepKeeps(s, run[0]);
      RunKeeps(Next(s, run[0]), run[1..]);
    }
  }

  // ------------------------------------------------------------------ the theorems

  /** In every reachable state the messages handed out are, in order, the first of those accepted; each
      was handed out against one registry; and the callbacks made are exactly those due. */
  lemma ExactlyOnceInOrder(s: State, run: seq<Step>)
    requires Initial(s) && Follows(s, run)
    ensures var u := After(s, run);
            && Messages(u.handled) <= u.accepted
            && Handouts(u.handled) <= u.log
            && (u.worker.Handing? ==>
                 && u.accepted == Messages(u.handled) + [u.worker.m] + u.fifo
                 && u.worker.next <= |u.entries|
                 && u.log == Handouts(u.handled) + Handed(u.worker.m, u.entries, u.worker.next))
            && (!u.worker.Handing? ==>
                 u.accepted == Messages(u.handled) + u.fifo && u.log == Handouts(u.handled))
  {
    InitialInv(s);
    RunKeeps(s, run);
  }

  /** No step taken while a pass is on changes the registry. */
  lemma RegistryFrozen(s: State, run: seq<Step>, st: Step)
    requires Initial(s) && Follows(s, run) && Enabled(After(s, run), st) && InPass(After(s, run).worker)
    ensures Next(After(s, run), st).entries == After(s, run).entries == After(s, run).frozen
  {
    InitialInv(s);
    RunKeeps(s, run);
  }

  lemma NoLostWakeup(s: State, run: seq<Step>)
    requires Initial(s) && Follows(s, run) && After(s, run).fifo != []
    ensures var u := After(s, run);
            || u.pending
            || u.worker.Started? || u.worker.AtRead? || u.worker.Handing? || u.worker.AtLook?
            || exists p :: p in u.producers && u.producers[p].HasPut?
  {
    InitialInv(s);
    RunKeeps(s, run);
  }

  lemma NullNeverCalled(s: State, run: seq<Step>)
    requires Initial(s) && Follows(s, run)
    ensures forall k :: 0 <= k < |After(s, run).log| ==> After(s, run).log[k].callback.Some?
  {
    InitialInv(s);
    RunKeeps(s, run);
  }

  // ------------------------------------------------------------------ who is called

  /** Some registration of the run gave this callback this tag for types among which is the message's. */
  predicate ByReg(run: seq<Step>, callback: Option<nat>, tag: nat, types: TypeMap) {
    exists j :: 0 <= j < |run| && run[j] == Reg(callback, types, tag)
  }

  predicate Asked(run: seq<Step>, d: Delivery) {
    exists j :: 0 <= j < |run| && run[j].Reg? && run[j].callback == d.callback && run[j].tag == d.tag
                && !(d.msg.kind !! run[j].types)
  }

  /** What the registry and the calls owe to the run so far. */
  predicate Owed(run: seq<Step>, s: State) {
    && (forall i :: 0 <= i < |s.entries| && s.entries[i].types != {} ==>
         ByReg(run, s.entries[i].callback, s.entries[i].tag, s.entries[i].types))
    && (forall k :: 0 <= k < |s.log| ==> Asked(run, s.log[k]))
  }

  lemma OwedMore(run: seq<Step>, st: Step, s: State)
    requires Owed(run, s)
    ensures Owed(run + [st], s)
  {
    var more := run + [st];
    forall i | 0 <= i < |s.entries| && s.entries[i].types != {}
      ensures ByReg(more, s.entries[i].callback, s.entries[i].tag, s.entries[i].types)
    {
      var j :| 0 <= j < |run| && run[j] == Reg(s.entries[i].callback, s.entries[i].types, s.entries[i].tag);
      assert more[j] == run[j];
    }
    forall k | 0 <= k < |s.log| ensures Asked(more, s.log[k]) {
      assert Asked(run, s.log[k]);
      var j :| 0 <= j < |run| && run[j].Reg? && run[j].callback == s.log[k].callback && run[j].tag == s.log[k].tag
               && !(s.log[k].msg.kind !! run[j].types);
      assert more[j] == run[j];
    }
  }

  lemma StepOwed(run: seq<Step>, s: State, st: Step)
    requires Owed(run, s) && Enabled(s, st)
    ensures Owed(run + [st], Next(s, st))
  {
    OwedMore(run, st, s);
    var more, s' := run + [st], Next(s, st);
    match st
    case Reg(callback, types, tag) =>
      assert more[|run|] == st;
    case Slot =>
      var i := s.worker.next;
      if |s'.log| > |s.log| {
        var e := s.entries[i];
        assert ByReg(more, e.callback, e.tag, e.types);
        var j :| 0 <= j < |more| && more[j] == Reg(e.callback, e.types, e.tag);
        assert Asked(more, s'.log[|s.log|]);
      }
    case _ =>
  }

  lemma {:induction false} RunOwed(past: seq<Step>, s: State, run: seq<Step>)
    requires Owed(past, s) && Follows(s, run)
    ensures Owed(past + run, After(s, run))
    decreases |run|
  {
    if run == [] {
      assert past + run == past;
    } else {
      StepOwed(past, s, run[0]);
      RunOwed(past + [run[0]], Next(s, run[0]), run[1..]);
      assert past + run == past + [run[0]] + run[1..];
    }
  }

  /** Every call of a run goes to a callback with the tag one and the same registration of the run gave it,
      which asked for a type of the message. */
  lemma CalledAsAsked(s: State, run: seq<Step>, k: nat)
    requires Initial(s) && Follows(s, run) && k < |After(s, run).log|
    ensures Asked(run, After(s, run).log[k])
  {
    RunOwed([], s, run);
    assert [] + run == run;
  }

  /** Between passes a registration with a callback takes the first free slot, and an unregistration clears
      the first that matches; during a pass neither does anything. */
  lemma EditsTake(s: State, run: seq<Step>, st: Step)
    requires Initial(s) && Follows(s, run) && (st.Reg? || st.Unreg?) && st.callback.Some?
    ensures var u := After(s, run); var es, es' := u.entries, Next(u, st).entries;
      && (InPass(u.worker) ==> es' == es)
      && (!InPass(u.worker) && st.Reg? && FirstFree(es) < |es| ==>
           es' == es[FirstFree(es) := Entry(st.callback, st.tag, st.types)])
      && (!InPass(u.worker) && st.Unreg? ==>
           var i := FirstMatch(es, st.callback, st.types);
           es' == if i < |es| then es[i := Entry(None, 0, {})] else es)
  {
    InitialInv(s);
    RunKeeps(s, run);
  }

  /** A queue found full turns the producer away, and one filled since its look loses the message; otherwise a
      look and a put leave the message at the end of the queue. */
  lemma FullTurnsAway(s: State, p: nat, m: Msg)
    requires p !in s.producers
    ensures var looked := Next(s, LookFull(p, m));
      && looked.fifo == s.fifo
      && (|s.fifo| >= s.capacity ==> looked == s)
      && (|s.fifo| < s.capacity ==>
           && Enabled(looked, Put(p))
           && Next(looked, Put(p)).fifo == s.fifo + [m] && Next(looked, Put(p)).accepted == s.accepted + [m]
           && Enabled(Next(looked, Put(p)), QueueWork(p)))
    ensures forall u: State :: Enabled(u, Put(p)) && |u.fifo| >= u.capacity ==>
      Next(u, Put(p)) == u.(producers := u.producers - {p})
  {
  }

  predicate Gone(s: State, callback: Option<nat>) {
    forall i :: 0 <= i < |s.entries| && s.entries[i].callback == callback ==> s.entries[i].types == {}
  }

  lemma StepGone(s: State, st: Step, callback: Option<nat>)
    requires Enabled(s, st) && Gone(s, callback) && !(st.Reg? && st.callback == callback) && callback.Some?
    ensures Gone(Next(s, st), callback)
    ensures var s' := Next(s, st);
      s'.log == s.log || (|s'.log| == |s.log| + 1 && s'.log[..|s.log|] == s.log && s'.log[|s.log|].callback != callback)
  {
  }

  /** A callback with no slot left is not called again until it is registered anew. */
  lemma {:induction false} GoneIsSilent(s: State, run: seq<Step>, callback: Option<nat>)
    requires Gone(s, callback) && Follows(s, run) && callback.Some?
    requires forall j :: 0 <= j < |run| ==> !(run[j].Reg? && run[j].callback == callback)
    ensures var u := After(s, run);
      && |s.log| <= |u.log| && u.log[..|s.log|] == s.log
      && forall k :: |s.log| <= k < |u.log| ==> u.log[k].callback != callback
    decreases |run|
  {
    if run != [] {
      StepGone(s, run[0], callback);
      assert forall j :: 0 <= j < |run[1..]| ==> run[1..][j] == run[j + 1];
      GoneIsSilent(Next(s, run[0]), run[1..], callback);
      var u, s1 := After(s, run), Next(s, run[0]);
      assert u.log[..|s.log|] == u.log[..|s1.log|][..|s.log|];
      assert forall k :: |s.log| <= k < |s1.log| ==> u.log[k] == u.log[..|s1.log|][k];
    }
  }

  // ------------------------------------------------------------------ the work item left alone

  predicate WorkerStep(st: Step) {
    st.Start? || st.SetSending? || st.Read? || st.Slot? || st.LookEmpty? || st.End?
  }

  /** The step the work item takes next, if it has one. */
  function WorkerNext(s: State): Option<Step> {
    match s.worker
    case Idle => if s.pending then Some(Start) else None
    case Started => Some(SetSending)
    case AtRead => Some(Read)
    case Handing(_, _) => Some(Slot)
    case AtLook => Some(LookEmpty)
    case AtEnd => Some(End)
  }

  function WorkLeft(s: State): int {
    40 * |s.fifo| + (if s.pending then 4 else 0)
    + match s.worker
      case Idle => 0
      case AtEnd => 1
      case AtRead => 2
      case AtLook => 3
      case Started => 3
      case Handing(_, i) => 4 + REG_COUNT - i
  }

  lemma SlotProgress(s: State)
    requires Inv(s) && s.worker.Handing?
    ensures 0 <= WorkLeft(Next(s, Slot)) < WorkLeft(s)
  {
  }

  lemma ReadProgress(s: State)
    requires Inv(s) && s.worker.AtRead?
    ensures 0 <= WorkLeft(Next(s, Read)) < WorkLeft(s)
  {
  }

  lemma WorkerProgress(s: State)
    requires Inv(s) && WorkerNext(s).Some?
    ensures var st := WorkerNext(s).value;
            && Enabled(s, st) && WorkerStep(st)
            && 0 <= WorkLeft(Next(s, st)) < WorkLeft(s)
            && Next(s, st).producers == s.producers && Next(s, st).accepted == s.accepted
  {
    match s.worker
    case Handing(_, _) => SlotProgress(s);
    case AtRead => ReadProgress(s);
    case _ =>
  }

  /** Once no producer is between its steps the work item, left alone, hands out everything that was
      accepted and comes to rest. */
  lemma {:induction false} Drains(s: State) returns (run: seq<Step>)
    requires Inv(s) && s.producers == map[]
    ensures Follows(s, run) && (forall k :: 0 <= k < |run| ==> WorkerStep(run[k]))
    ensures var u := After(s, run);
            && u.worker == Idle && !u.pending && u.fifo == []
            && u.accepted == s.accepted == Messages(u.handled) && u.log == Handouts(u.handled)
    decreases WorkLeft(s)
  {
    if WorkerNext(s).None? {
      run := [];
      assert After(s, []) == s;
    } else {
      var st := WorkerNext(s).value;
      WorkerProgress(s);
      StepKeeps(s, st);
      var rest := Drains(Next(s, st));
      run := [st] + rest;
      assert run[1..] == rest;
    }
  }

  lemma DrainsFromAnywhere(s: State, before: seq<Step>) returns (run: seq<Step>)
    requires Initial(s) && Follows(s, before) && After(s, before).producers == map[]
    ensures Follows(After(s, before), run) && (forall k :: 0 <= k < |run| ==> WorkerStep(run[k]))
    ensures var u := After(After(s, before), run);
            && u.worker == Idle && u.fifo == []
            && Messages(u.handled) == After(s, before).accepted && u.log == Handouts(u.handled)
  {
    InitialInv(s);
    RunKeeps(s, before);
    run := Drains(After(s, before));
  }
}
