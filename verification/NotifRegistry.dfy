/** The registry of notification callbacks of a link group and the handing out of one message
    (ctrl/sl_ctrl_lgrp_notif.c), as values and as the object whose array the driver edits. */
module NotifRegistry {

  import opened Common

  /** A 32-bit map of notification types as the set of its bit numbers. */
  type TypeMap = set<nat>

  datatype Rtn = Ok | EINVAL | EBUSY | ETIMEDOUT | ENOSPC | EFAULT

  const REG_COUNT: nat := 16

  /** A slot is free when it asks for no type, whatever else it still holds. */
  datatype Entry = Entry(callback: Option<nat>, tag: nat, types: TypeMap)

  const CLEARED := Entry(None, 0, {})

  datatype Msg = Msg(link: nat, kind: TypeMap, info: nat)

  datatype Delivery = Delivery(slot: nat, callback: Option<nat>, tag: nat, msg: Msg)

  predicate Wants(e: Entry, m: Msg) { !(m.kind !! e.types) }

  // ------------------------------------------------------------------ registering

  function FirstFree(es: seq<Entry>): (i: nat)
    ensures i <= |es|
    ensures forall k :: 0 <= k < i ==> es[k].types != {}
    ensures i < |es| ==> es[i].types == {}
  {
    if es == [] || es[0].types == {} then 0 else 1 + FirstFree(es[1..])
  }

  function FirstMatch(es: seq<Entry>, callback: Option<nat>, types: TypeMap): (i: nat)
    ensures i <= |es|
    ensures forall k :: 0 <= k < i ==> !(es[k].types == types && es[k].callback == callback)
    ensures i < |es| ==> es[i].types == types && es[i].callback == callback
  {
    if es == [] || (es[0].types == types && es[0].callback == callback) then 0
    else 1 + FirstMatch(es[1..], callback, types)
  }

  function Registered(es: seq<Entry>, callback: Option<nat>, types: TypeMap, tag: nat): (seq<Entry>, Rtn) {
    var i := FirstFree(es);
    if i < |es| then (es[i := Entry(callback, tag, types)], Ok) else (es, ENOSPC)
  }

  function Unregistered(es: seq<Entry>, callback: Option<nat>, types: TypeMap): seq<Entry> {
    var i := FirstMatch(es, callback, types);
    if i < |es| then es[i := CLEARED] else es
  }

  /** A registration is refused exactly when every slot asks for something; an edit touches one slot at
      most, and no edit is made for a registration that is not there. */
  lemma EditsOne(es: seq<Entry>, callback: Option<nat>, types: TypeMap, tag: nat)
    ensures var (es', rtn) := Registered(es, callback, types, tag);
      && (rtn == Ok || rtn == ENOSPC) && (rtn == ENOSPC <==> forall i :: 0 <= i < |es| ==> es[i].types != {})
      && (rtn == ENOSPC ==> es' == es) && |es'| == |es|
      && (rtn == Ok ==> exists i :: 0 <= i < |es| && es[i].types == {}
                          && es'[i].callback == callback && es'[i].types == types && es'[i].tag == tag
                          && forall k :: 0 <= k < |es| && k != i ==> es'[k] == es[k])
    ensures var es' := Unregistered(es, callback, types); var i := FirstMatch(es, callback, types);
      && |es'| == |es|
      && (es' == es <==> (i < |es| ==> es[i] == Entry(None, 0, {})))
      && (i < |es| ==> es'[i].callback == None && es'[i].tag == 0 && es'[i].types == {})
      && forall k :: 0 <= k < |es| && k != i ==> es'[k] == es[k]
  {
    var i := FirstFree(es);
    if i < |es| {
      var es' := Registered(es, callback, types, tag).0;
      assert es[i].types == {} && forall k :: 0 <= k < |es| && k != i ==> es'[k] == es[k];
    }
    var j := FirstMatch(es, callback, types);
    if j < |es| {
      assert Unregistered(es, callback, types)[j] == CLEARED;
    }
  }

  /** Unregistering what was just registered gives back the old registry, with the slot cleared,
      exactly when no slot before it held the same callback for the same types. */
  lemma UnregisterUndoes(es: seq<Entry>, callback: Option<nat>, types: TypeMap, tag: nat)
    requires FirstFree(es) < |es| && types != {}
    ensures var i := FirstFree(es);
            Unregistered(Registered(es, callback, types, tag).0, callback, types) == es[i := CLEARED]
            <==> FirstMatch(es[..i], callback, types) == i
  {
    var i := FirstFree(es);
    var es1 := Registered(es, callback, types, tag).0;
    var j := FirstMatch(es1, callback, types);
    var k := FirstMatch(es[..i], callback, types);
    assert es1[i].types == types && es1[i].callback == callback;
    if k < i {
      assert es1[k].types == types && es1[k].callback == callback;
      assert Unregistered(es1, callback, types)[i].types == types;
    } else {
      assert forall n :: 0 <= n < i ==> es1[n] == es[..i][n];
      assert j == i;
    }
  }

  // ------------------------------------------------------------------ handing out one message

  /** What the first `n` slots get of message `m`. */
  function Handed(m: Msg, es: seq<Entry>, n: nat): seq<Delivery>
    requires n <= |es|
  {
    if n == 0 then []
    else Handed(m, es, n - 1)
         + (if Wants(es[n - 1], m) then [Delivery(n - 1, es[n - 1].callback, es[n - 1].tag, m)] else [])
  }

  lemma HandedStep(m: Msg, es: seq<Entry>, n: nat)
    requires 0 < n <= |es|
    ensures var h, h' := Handed(m, es, n), Handed(m, es, n - 1);
            && |h'| <= |h| && h[..|h'|] == h'
            && h[|h'|..] == if Wants(es[n - 1], m) then [Delivery(n - 1, es[n - 1].callback, es[n - 1].tag, m)] else []
  {
  }

  lemma {:induction false} HandedReaches(m: Msg, es: seq<Entry>, n: nat, i: nat) returns (k: nat)
    requires i < n <= |es| && Wants(es[i], m)
    ensures k < |Handed(m, es, n)| && Handed(m, es, n)[k].slot == i
  {
    HandedStep(m, es, n);
    if i == n - 1 {
      k := |Handed(m, es, n - 1)|;
      assert Handed(m, es, n)[k] == Handed(m, es, n)[k..][0];
    } else {
      k := HandedReaches(m, es, n - 1, i);
      assert Handed(m, es, n)[k] == Handed(m, es, n - 1)[k];
    }
  }

  /** The k-th call goes to its slot's callback with its slot's tag, and the slot asks for it. */
  predicate Due(m: Msg, es: seq<Entry>, n: nat, d: Delivery) {
    d.slot < n <= |es| && Wants(es[d.slot], m) && d == Delivery(d.slot, es[d.slot].callback, es[d.slot].tag, m)
  }

  lemma {:induction false} HandedInOrder(m: Msg, es: seq<Entry>, n: nat)
    requires n <= |es|
    ensures var h := Handed(m, es, n);
            && (forall k :: 0 <= k < |h| ==> Due(m, es, n, h[k]))
            && (forall j, k :: 0 <= j < k < |h| ==> h[j].slot < h[k].slot)
  {
    if n > 0 {
      HandedInOrder(m, es, n - 1);
      HandedStep(m, es, n);
      var h, h' := Handed(m, es, n), Handed(m, es, n - 1);
      forall k | 0 <= k < |h| ensures Due(m, es, n, h[k]) && (k < |h'| ==> h[k].slot < n - 1) {
        if k < |h'| {
          assert h[k] == h'[k] && Due(m, es, n - 1, h'[k]);
        } else {
          assert h[k] == h[|h'|..][k - |h'|];
        }
      }
      forall j, k | 0 <= j < k < |h| ensures h[j].slot < h[k].slot {
        assert h[j] == h'[j];
        if k < |h'| {
          assert h[k] == h'[k];
        } else {
          assert h[k] == h[|h'|..][k - |h'|];
        }
      }
    }
  }

  predicate Reached(h: seq<Delivery>, i: nat) { exists k :: 0 <= k < |h| && h[k].slot == i }

  /** A message goes once to every slot that asks for its type and to no other, in slot order. */
  lemma HandedExactly(m: Msg, es: seq<Entry>, n: nat)
    requires n <= |es|
    ensures var h := Handed(m, es, n);
            && (forall k :: 0 <= k < |h| ==> Due(m, es, n, h[k]))
            && (forall j, k :: 0 <= j < k < |h| ==> h[j].slot < h[k].slot)
            && (forall i :: 0 <= i < n && Wants(es[i], m) ==> Reached(h, i))
  {
    HandedInOrder(m, es, n);
    forall i | 0 <= i < n && Wants(es[i], m) ensures Reached(Handed(m, es, n), i) {
      var k := HandedReaches(m, es, n, i);
      assert Handed(m, es, n)[k].slot == i;
    }
  }

  lemma {:induction false} HandedSame(m: Msg, es: seq<Entry>, es': seq<Entry>, n: nat)
    requires n <= |es| && n <= |es'| && es[..n] == es'[..n]
    ensures Handed(m, es, n) == Handed(m, es', n)
  {
    if n > 0 {
      assert es[..n - 1] == es[..n][..n - 1] && es'[..n - 1] == es'[..n][..n - 1];
      assert es[n - 1] == es[..n][n - 1] && es'[n - 1] == es'[..n][n - 1];
      HandedSame(m, es, es', n - 1);
    }
  }

  /** What the slots from `from` to n get. */
  function HandedFrom(m: Msg, es: seq<Entry>, from: nat, n: nat): seq<Delivery>
    requires from <= n <= |es|
  {
    if n == from then []
    else HandedFrom(m, es, from, n - 1)
         + (if Wants(es[n - 1], m) then [Delivery(n - 1, es[n - 1].callback, es[n - 1].tag, m)] else [])
  }

  lemma {:induction false} HandedParts(m: Msg, es: seq<Entry>, from: nat, n: nat)
    requires from <= n <= |es|
    ensures Handed(m, es, n) == Handed(m, es, from) + HandedFrom(m, es, from, n)
  {
    if n > from { HandedParts(m, es, from, n - 1); }
  }

  lemma {:induction false} HandedFromSame(m: Msg, es: seq<Entry>, es': seq<Entry>, from: nat, n: nat)
    requires from <= n <= |es| && n <= |es'| && forall k :: from <= k < n ==> es[k] == es'[k]
    ensures HandedFrom(m, es, from, n) == HandedFrom(m, es', from, n)
  {
    if n > from { HandedFromSame(m, es, es', from, n - 1); }
  }

  /** A client that has registered is called with its own tag for every message of a type it asked for, once,
      and for no other; nobody else's calls change. */
  lemma RegisteredHears(es: seq<Entry>, callback: Option<nat>, types: TypeMap, tag: nat, m: Msg)
    requires FirstFree(es) < |es|
    ensures var i := FirstFree(es); var es' := Registered(es, callback, types, tag).0;
      var own := if m.kind !! types then [] else [Delivery(i, callback, tag, m)];
      && |es'| == |es|
      && Handed(m, es, |es|) == Handed(m, es, i) + HandedFrom(m, es, i + 1, |es|)
      && Handed(m, es', |es'|) == Handed(m, es, i) + own + HandedFrom(m, es, i + 1, |es|)
  {
    var i, es' := FirstFree(es), Registered(es, callback, types, tag).0;
    HandedParts(m, es, i + 1, |es|);
    HandedParts(m, es', i + 1, |es|);
    HandedSame(m, es, es', i);
    HandedFromSame(m, es, es', i + 1, |es|);
  }

  function HandedAll(ms: seq<Msg>, es: seq<Entry>): seq<Delivery> {
    if ms == [] then [] else Handed(ms[0], es, |es|) + HandedAll(ms[1..], es)
  }

  lemma {:induction false} HandedAllMore(ms: seq<Msg>, m: Msg, es: seq<Entry>)
    ensures HandedAll(ms + [m], es) == HandedAll(ms, es) + Handed(m, es, |es|)
  {
    if ms == [] {
      assert [m][1..] == [];
    } else {
      assert (ms + [m])[1..] == ms[1..] + [m];
      HandedAllMore(ms[1..], m, es);
    }
  }

  // ------------------------------------------------------------------ what a registration asks of the media layer

  datatype MediaSend = PresentSend | NotPresentSend | HotSend | WarmSend | ColdSend

  const MEDIA_PRESENT: nat     := 14
  const MEDIA_NOT_PRESENT: nat := 15
  const MEDIA_HOT: nat         := 17
  const MEDIA_COLD: nat        := 18
  const MEDIA_WARM: nat        := 19

  function SendIf(types: TypeMap, bit: nat, send: MediaSend): seq<MediaSend> {
    if bit in types then [send] else []
  }

  /** A client that asks for a media type is told the present state of the media. */
  function Sends(types: TypeMap): seq<MediaSend> {
    SendIf(types, MEDIA_PRESENT, PresentSend) + SendIf(types, MEDIA_NOT_PRESENT, NotPresentSend)
    + SendIf(types, MEDIA_HOT, HotSend) + SendIf(types, MEDIA_WARM, WarmSend) + SendIf(types, MEDIA_COLD, ColdSend)
  }

  function Rank(send: MediaSend): nat {
    match send case PresentSend => 0 case NotPresentSend => 1 case HotSend => 2 case WarmSend => 3 case ColdSend => 4
  }

  /** In order and each once, none above `top`. */
  predicate Ranked(s: seq<MediaSend>, top: int) {
    && (forall j, k :: 0 <= j < k < |s| ==> Rank(s[j]) < Rank(s[k]))
    && (forall k :: 0 <= k < |s| ==> Rank(s[k]) <= top)
  }

  lemma RankedMore(s: seq<MediaSend>, types: TypeMap, bit: nat, send: MediaSend)
    requires Ranked(s, Rank(send) - 1)
    ensures Ranked(s + SendIf(types, bit, send), Rank(send))
  {
  }

  lemma SentMore(s: seq<MediaSend>, types: TypeMap, bit: nat, send: MediaSend, x: MediaSend)
    ensures x in s + SendIf(types, bit, send) <==> x in s || (x == send && bit in types)
  {
  }

  /** The bit that asks for a send. */
  function AskedBy(send: MediaSend): nat {
    match send
    case PresentSend => 14 case NotPresentSend => 15 case HotSend => 17 case WarmSend => 19 case ColdSend => 18
  }

  /** Each of the five questions is asked once and in this order, exactly when its bit is among the types. */
  lemma SendsExactly(types: TypeMap, x: MediaSend)
    ensures (x in Sends(types) <==> AskedBy(x) in types) && Ranked(Sends(types), 4)
  {
    var s := SendIf(types, MEDIA_PRESENT, PresentSend);
    RankedMore(s, types, MEDIA_NOT_PRESENT, NotPresentSend);
    SentMore(s, types, MEDIA_NOT_PRESENT, NotPresentSend, x);
    s := s + SendIf(types, MEDIA_NOT_PRESENT, NotPresentSend);
    RankedMore(s, types, MEDIA_HOT, HotSend);
    SentMore(s, types, MEDIA_HOT, HotSend, x);
    s := s + SendIf(types, MEDIA_HOT, HotSend);
    RankedMore(s, types, MEDIA_WARM, WarmSend);
    SentMore(s, types, MEDIA_WARM, WarmSend, x);
    s := s + SendIf(types, MEDIA_WARM, WarmSend);
    RankedMore(s, types, MEDIA_COLD, ColdSend);
    SentMore(s, types, MEDIA_COLD, ColdSend, x);
  }

  // ------------------------------------------------------------------ the driver's object

  /** `sends` and `tempClears` are what was asked of the media layer: the sends, and how often it was told
      to forget which temperatures it has announced. */
  class NotifGroup {
    const entries: array<Entry>
    var fifo: seq<Msg>
    const capacity: nat
    var sending: bool
    var log: seq<Delivery>
    var sends: seq<MediaSend>
    var tempClears: nat

    ghost predicate Valid() reads this, entries {
      entries.Length == REG_COUNT && |fifo| <= capacity
    }

    constructor (capacity: nat)
      ensures Valid() && fresh(entries) && this.capacity == capacity
      ensures entries.Length == 16 && forall i :: 0 <= i < 16 ==> entries[i] == Entry(None, 0, {})
      ensures fifo == [] && log == [] && !sending && entries[..] == seq(REG_COUNT, _ => CLEARED)
      ensures sends == [] && tempClears == 0
    {
      entries := new Entry[REG_COUNT](_ => CLEARED);
      this.capacity := capacity;
      fifo, log, sending, sends, tempClears := [], [], false, [], 0;
      new;
      assert entries[..] == seq(REG_COUNT, _ => CLEARED);
    }

    /** Ten looks at the list state, one every 20ms; `busy(k)` is what look `k` sees. */
    static method WaitIdle(busy: nat -> bool) returns (idle: bool)
      ensures idle <==> exists k :: 0 <= k < 10 && !busy(k)
    {
      var counter := 0;
      while busy(counter)
        invariant counter < 10
        invariant forall k :: 0 <= k < counter ==> busy(k)
        decreases 10 - counter
      {
        counter := counter + 1;
        if counter >= 10 { return false; }
      }
      return true;
    }

    method CallbackReg(callback: Option<nat>, types: TypeMap, tag: nat, busy: nat -> bool) returns (rtn: Rtn)
      requires Valid()
      modifies entries, this`sends
      ensures Valid()
      ensures callback.None? ==> rtn == EINVAL && entries[..] == old(entries[..])
      ensures callback.Some? && (forall k :: 0 <= k < 10 ==> busy(k)) ==>
                rtn == ETIMEDOUT && entries[..] == old(entries[..])
      ensures callback.Some? && (exists k :: 0 <= k < 10 && !busy(k)) && sending ==>
                rtn == EBUSY && entries[..] == old(entries[..])
      ensures callback.Some? && (exists k :: 0 <= k < 10 && !busy(k)) && !sending ==>
                (entries[..], rtn) == Registered(old(entries[..]), callback, types, tag)
      ensures rtn.Ok? ==> exists i :: 0 <= i < REG_COUNT && old(entries[i].types) == {}
                            && entries[i].callback == callback && entries[i].tag == tag && entries[i].types == types
                            && forall k :: 0 <= k < REG_COUNT && k != i ==> entries[k] == old(entries[k])
      ensures sends == old(sends) + (if rtn.Ok? then Sends(types) else [])
    {
      if callback.None? { return EINVAL; }
      var idle := WaitIdle(busy);
      if !idle { return ETIMEDOUT; }
      if sending { return EBUSY; }
      var regIdx := 0;
      while regIdx < entries.Length
        invariant 0 <= regIdx <= entries.Length
        invariant entries[..] == old(entries[..])
        invariant forall k :: 0 <= k < regIdx ==> entries[k].types != {}
      {
        if entries[regIdx].types == {} {
          assert FirstFree(old(entries[..])) == regIdx;
          entries[regIdx] := Entry(callback, tag, types);
          sends := sends + Sends(types);
          return Ok;
        }
        regIdx := regIdx + 1;
      }
      rtn := ENOSPC;
    }

    method CallbackUnreg(callback: Option<nat>, types: TypeMap, busy: nat -> bool) returns (rtn: Rtn)
      requires Valid()
      modifies entries, this`tempClears
      ensures Valid() && tempClears == old(tempClears) + (if callback.None? then 0 else 1)
      ensures callback.None? ==> rtn == EINVAL && entries[..] == old(entries[..])
      ensures callback.Some? && (forall k :: 0 <= k < 10 ==> busy(k)) ==>
                rtn == ETIMEDOUT && entries[..] == old(entries[..])
      ensures callback.Some? && (exists k :: 0 <= k < 10 && !busy(k)) && sending ==>
                rtn == EBUSY && entries[..] == old(entries[..])
      ensures callback.Some? && (exists k :: 0 <= k < 10 && !busy(k)) && !sending ==>
                rtn == Ok && entries[..] == Unregistered(old(entries[..]), callback, types)
    {
      if callback.None? { return EINVAL; }
      tempClears := tempClears + 1;
      var idle := WaitIdle(busy);
      if !idle { return ETIMEDOUT; }
      if sending { return EBUSY; }
      var regIdx := 0;
      while regIdx < entries.Length
        invariant 0 <= regIdx <= entries.Length
        invariant entries[..] == old(entries[..])
        invariant forall k :: 0 <= k < regIdx ==> !(entries[k].types == types && entries[k].callback == callback)
      {
        if entries[regIdx].types == types && entries[regIdx].callback == callback {
          assert FirstMatch(old(entries[..]), callback, types) == regIdx;
          entries[regIdx] := CLEARED;
          return Ok;
        }
        regIdx := regIdx + 1;
      }
      rtn := Ok;
    }

    /** `others` is what other producers put between the look at the queue and the put: a queue found full
        is ENOSPC, one that they fill meanwhile EFAULT. */
    method Enqueue(m: Msg, others: seq<Msg>) returns (rtn: Rtn)
      requires Valid() && (|fifo| < capacity ==> |fifo| + |others| <= capacity)
      modifies this`fifo
      ensures Valid()
      ensures rtn == ENOSPC <==> old(|fifo|) == capacity
      ensures rtn == EFAULT <==> old(|fifo|) < capacity && old(|fifo|) + |others| == capacity
      ensures fifo == match rtn
                      case ENOSPC => old(fifo)
                      case EFAULT => old(fifo) + others
                      case _ => old(fifo) + others + [m]
      ensures rtn.Ok? || rtn == ENOSPC || rtn == EFAULT
    {
      if |fifo| == capacity { return ENOSPC; }
      fifo := fifo + others;
      if |fifo| == capacity { return EFAULT; }
      fifo := fifo + [m];
      rtn := Ok;
    }

    method HandOut(m: Msg)
      requires Valid()
      modifies this`log
      ensures log == old(log) + Handed(m, entries[..], REG_COUNT)
    {
      for regIdx := 0 to REG_COUNT
        invariant log == old(log) + Handed(m, entries[..], regIdx)
      {
        if Wants(entries[regIdx], m) {
          log := log + [Delivery(regIdx, entries[regIdx].callback, entries[regIdx].tag, m)];
        }
      }
    }

    /** One run of the work item with nobody else at the queue: it drains it, in order. */
    method NotifWork()
      requires Valid()
      modifies this`fifo, this`sending, this`log
      ensures Valid() && !sending && fifo == []
      ensures log == old(log) + HandedAll(old(fifo), entries[..])
    {
      sending := true;
      ghost var done: seq<Msg> := [];
      while fifo != []
        invariant Valid() && done + fifo == old(fifo)
        invariant log == old(log) + HandedAll(done, entries[..])
        decreases |fifo|
      {
        var m := fifo[0];
        fifo := fifo[1..];
        HandOut(m);
        HandedAllMore(done, m, entries[..]);
        done := done + [m];
      }
      sending := false;
      assert done == old(fifo);
    }
  }
}
