/** The order in which the driver's table delivers, and exactly when it is right. */
module RxReorderOrder {
  import opened Wrappers
  import opened RxReorder
  import opened RxReorderReference
  import opened RxReorderRefinement
  import Laws = RxReorderLaws

  // ---------------------------------------------------------- order over a run

  predicate Ordered(out: seq<Packet>, lo: int, hi: int) {
    && (forall i :: 0 <= i < |out| ==> lo <= out[i].number < hi)
    && (forall i, j :: 0 <= i < j < |out| ==> out[i].number < out[j].number)
  }

  predicate Filed(b: Buffer, winSize: nat) {
    forall n :: n in b.stored ==> b.start <= n < b.start + winSize && b.stored[n].number == n
  }

  lemma {:induction false} BetweenOrdered(m: map<int, Packet>, lo: int, hi: int)
    requires forall n :: n in m ==> m[n].number == n
    requires lo <= hi
    ensures Ordered(Between(m, lo, hi), lo, hi)
    decreases hi - lo
  {
    if lo < hi { BetweenOrdered(m, lo + 1, hi); }
  }

  /** From a window start `lo`, frames went up in order up to the new window start, and what is
      stored lies in the window. */
  predicate InTurn(lo: int, winSize: nat, r: (Buffer, seq<Packet>)) {
    lo <= r.0.start && Ordered(r.1, lo, r.0.start) && Filed(r.0, winSize)
  }

  lemma {:induction false} PassUpOrdered(b: Buffer, winSize: nat)
    requires Filed(b, winSize)
    ensures InTurn(b.start, winSize, PassUp(b))
    decreases |b.stored|
  {
    if b.start in b.stored {
      var b1 := Buffer(b.start + 1, b.stored - {b.start});
      assert b1.stored.Keys == b.stored.Keys - {b.start};
      PassUpOrdered(b1, winSize);
    }
  }

  lemma MoveToOrdered(b: Buffer, winSize: nat, start: int)
    requires Filed(b, winSize) && start >= b.start
    ensures InTurn(b.start, winSize, MoveTo(b, start))
  {
    BetweenOrdered(b.stored, b.start, start);
  }

  lemma ThenOrdered(lo: int, winSize: nat, out1: seq<Packet>, mid: int, r: (Buffer, seq<Packet>))
    requires lo <= mid && Ordered(out1, lo, mid) && InTurn(mid, winSize, r)
    ensures InTurn(lo, winSize, (r.0, out1 + r.1))
  {}

  lemma OnFrameOrdered(b: Buffer, winSize: nat, p: Packet)
    requires Filed(b, winSize) && winSize >= 1
    ensures InTurn(b.start, winSize, OnFrame(b, winSize, p))
  {
    var n := p.number;
    if b.start <= n < b.start + winSize {
      PassUpOrdered(b.(stored := b.stored[n := p]), winSize);
    } else if n >= b.start + winSize {
      OnFrameBeyond(b, winSize, p);
      FrameBeyondOrdered(b, winSize, p, MoveTo(b, n - winSize + 1));
    }
  }

  lemma FrameBeyondOrdered(b: Buffer, winSize: nat, p: Packet, r: (Buffer, seq<Packet>))
    requires Filed(b, winSize) && winSize >= 1 && p.number >= b.start + winSize
    requires r == MoveTo(b, p.number - winSize + 1)
    ensures var q := PassUp(r.0.(stored := r.0.stored[p.number := p]));
      InTurn(b.start, winSize, (q.0, r.1 + q.1))
  {
    var b1 := r.0.(stored := r.0.stored[p.number := p]);
    MoveToOrdered(b, winSize, p.number - winSize + 1);
    PassUpOrdered(b1, winSize);
    ThenOrdered(b.start, winSize, r.1, b1.start, PassUp(b1));
  }

  lemma OnBarOrdered(b: Buffer, winSize: nat, number: int)
    requires Filed(b, winSize)
    ensures InTurn(b.start, winSize, OnBar(b, number))
  {
    if number >= b.start {
      var b1 := MoveTo(b, number).0;
      MoveToOrdered(b, winSize, number);
      PassUpOrdered(b1, winSize);
      ThenOrdered(b.start, winSize, MoveTo(b, number).1, number, PassUp(b1));
    }
  }

  lemma OnOrdered(b: Buffer, winSize: nat, ev: Event)
    requires Filed(b, winSize) && winSize >= 1
    ensures InTurn(b.start, winSize, On(b, winSize, ev))
  {
    match ev
    case Frame(_, p) => OnFrameOrdered(b, winSize, p);
    case BlockAckReq(n) => OnBarOrdered(b, winSize, n);
    case Timeout => MoveToOrdered(b, winSize, Top(b.stored, b.start, b.start + winSize));
  }

  /** The standard's buffer passes frames up with strictly increasing numbers, whatever arrives. */
  lemma {:induction false} RunBufferOrdered(b: Buffer, winSize: nat, evs: seq<Event>)
    requires Filed(b, winSize) && winSize >= 1
    ensures InTurn(b.start, winSize, RunBuffer(b, winSize, evs))
    decreases |evs|
  {
    if evs != [] {
      var (b1, out1) := On(b, winSize, evs[0]);
      OnOrdered(b, winSize, evs[0]);
      RunBufferOrdered(b1, winSize, evs[1..]);
      ThenOrdered(b.start, winSize, out1, b1.start, RunBuffer(b1, winSize, evs[1..]));
    }
  }

  // ------------------------------------------- an early release breaks the order

  predicate InOrder(out: seq<Packet>) {
    forall i, j :: 0 <= i < j < |out| ==> out[i].number < out[j].number
  }

  lemma {:induction false} SlotIsReleased(s: seq<Slot>, i: nat)
    requires i < |s| && s[i].Some?
    ensures s[i].value in Packets(s)
    decreases |s|
  {
    if i > 0 { SlotIsReleased(s[1..], i - 1); }
  }

  lemma TwiceIsOutOfOrder(a: seq<Packet>, b: seq<Packet>, q: Packet)
    requires q in a && q in b
    ensures !InOrder(a + b)
  {
    var i :| 0 <= i < |a| && a[i] == q;
    var j :| 0 <= j < |b| && b[j] == q;
    assert (a + b)[i] == q && (a + b)[|a| + j] == q;
  }

  /** The table would take `q` for a frame it has not seen. */
  predicate Forgotten(t: Table, q: Packet) {
    && 2 <= |t.slots| <= 1023 && 0 <= t.start <= SEQ_SPACE && !t.initShift && !t.forceNoDrop
    && Dist(q.number % SEQ_SPACE, t.start) < |t.slots| && t.slots[Dist(q.number % SEQ_SPACE, t.start)].None?
  }

  /** A packet that an early release gave away too soon. */
  lemma EmptiedForgets(t: Table, b: Buffer, last: Slot, d: nat, v: Verdict) returns (q: Packet)
    requires Sim(t, b) && Emptied(t, last, d, b.start, v)
    ensures b.start + d <= q.number < b.start + |t.slots| && q.number in b.stored && q == b.stored[q.number]
    ensures q in v.out && Forgotten(v.tbl, q)
  {
    var i :| 0 <= i < |t.slots| - d && t.slots[d..][i].Some?;
    assert t.slots[d + i] == Get(b.stored, b.start + (d + i));
    q := t.slots[d + i].value;
    SlotIsReleased(t.slots, d + i);
    StartAfter(b.start, d, v.tbl.start, q.number, i, q.number % SEQ_SPACE);
  }

  lemma StartAfter(start: int, d: nat, newStart: int, number: int, i: nat, sn: int)
    requires newStart == (start + d) % SEQ_SPACE && number == start + d + i && i < 1023 && sn == number % SEQ_SPACE
    ensures 0 <= newStart < SEQ_SPACE && Dist(sn, newStart) == i
  {
    DistOnLine(number, start + d, sn, newStart);
  }

  /** The frame comes once more, and then the timer expires. */
  function Probe(q: Packet): seq<Event> { [Frame(Data, q)] + [Timeout] }

  lemma ProbeRuns(t: Table, q: Packet, v: Verdict)
    requires |t.slots| >= 2 && v == Step(t, ToOp(Frame(Data, q))) && !ReleasesEarly(t, Frame(Data, q))
    ensures Run(t, ToOps(Probe(q))).1 == v.out + Step(v.tbl, ToOp(Timeout)).out
    ensures NeverReleasesEarly(t, Probe(q))
  {
    RunCons(t, Frame(Data, q), [Timeout], v);
    RunOne(v.tbl, Timeout, Step(v.tbl, ToOp(Timeout)));
    assert NeverReleasesEarly(Step(v.tbl, ToOp(Timeout)).tbl, []);
  }

  /** It is taken again, and the next timeout has delivered it at the latest. */
  lemma ForgottenIsTakenAgain(t: Table, q: Packet)
    requires Forgotten(t, q)
    ensures q in Run(t, ToOps(Probe(q))).1
    ensures NeverReleasesEarly(t, Probe(q))
  {
    var d := Dist(q.number % SEQ_SPACE, t.start);
    var t1 := t.(slots := t.slots[d := Some(q)]);
    ReceiveHere(t, q.number % SEQ_SPACE, d, q, t1);
    SlotIsReleased(t1.slots, d);
    Laws.ScanConserves(t1);
    FlushAfterScan(t1, Scan(t1).0);
    ProbeRuns(t, q, Receive(t, q.number % SEQ_SPACE, Data, Some(q)));
  }

  lemma FlushAfterScan(t1: Table, t2: Table)
    requires 2 <= |t1.slots| <= 1023 && t2 == Scan(t1).0
    ensures Flush(t2.(timerSet := true)).1 == Packets(t2.slots)
  {
    Laws.FlushReleasesAll(t2.(timerSet := true));
  }

  lemma ReceiveHere(t: Table, sn: int, d: int, q: Packet, t1: Table)
    requires 2 <= |t.slots| <= 1023 && !t.initShift && !t.forceNoDrop
    requires d == Dist(sn, t.start) < |t.slots| && t.slots[d].None? && t1 == t.(slots := t.slots[d := Some(q)])
    ensures Receive(t, sn, Data, Some(q)) == Verdict(Scan(t1).0.(timerSet := true), 0, Scan(t1).1)
    ensures !Shifts(t, sn, Data)
  {
    assert MakeRoom(t, sn, Data) == (t, []);
  }

  /** No frame above `hi` is stored, so passing up stops there. */
  lemma {:induction false} PassUpStops(b: Buffer, hi: int)
    requires b.start <= hi && forall n :: n in b.stored ==> n < hi
    ensures PassUp(b).0.start <= hi
    decreases |b.stored|
  {
    if b.start in b.stored {
      var b1 := Buffer(b.start + 1, b.stored - {b.start});
      assert b1.stored.Keys == b.stored.Keys - {b.start};
      PassUpStops(b1, hi);
    }
  }

  lemma FrameStartStaysNear(b: Buffer, winSize: nat, p: Packet)
    requires Filed(b, winSize) && winSize >= 1
    ensures OnFrame(b, winSize, p).0.start <= Max(b.start + winSize, p.number + 1)
  {
    var n := p.number;
    var hi := Max(b.start + winSize, n + 1);
    if b.start <= n < b.start + winSize {
      PassUpStops(b.(stored := b.stored[n := p]), hi);
    } else if n >= b.start + winSize {
      PassUpStops(Buffer(n - winSize + 1, From(b.stored, n - winSize + 1)[n := p]), hi);
    }
  }

  lemma BarStartStaysNear(b: Buffer, winSize: nat, number: int)
    requires Filed(b, winSize) && winSize >= 1
    ensures OnBar(b, number).0.start <= Max(b.start + winSize, number + 1)
  {
    if b.start <= number {
      PassUpStops(MoveTo(b, number).0, Max(b.start + winSize, number + 1));
    }
  }

  function Max(a: int, b: int): int { if a >= b then a else b }

  /** What a step that releases early leads to: some stored frame, if it arrives once more, is
      delivered once more. */
  lemma EarlyReleaseDeliversTwice(t: Table, b: Buffer, ev: Event) returns (q: Packet)
    requires Sim(t, b) && InReach(t.amsdu, b.start, ev) && ReleasesEarly(t, ev)
    ensures q.number in b.stored && q == b.stored[q.number]
    ensures RunInReach(t.amsdu, |t.slots|, b, [ev] + Probe(q))
    ensures NeverReleasesEarly(Step(t, ToOp(ev)).tbl, Probe(q))
    ensures !InOrder(Run(t, ToOps([ev] + Probe(q))).1)
  {
    var v := Step(t, ToOp(ev));
    match ev {
      case Frame(kind, p) => q := FrameForgets(t, b, kind, p, v);
      case BlockAckReq(n) => q := BarForgets(t, b, n, v);
    }
    ForgottenIsTakenAgain(v.tbl, q);
    ProbeInReach(t.amsdu, |t.slots|, b, ev, q, On(b, |t.slots|, ev).0);
    RunCons(t, ev, Probe(q), v);
    TwiceIsOutOfOrder(v.out, Run(v.tbl, ToOps(Probe(q))).1, q);
  }

  lemma FrameForgets(t: Table, b: Buffer, kind: PktType, p: Packet, v: Verdict) returns (q: Packet)
    requires Sim(t, b) && InReach(t.amsdu, b.start, Frame(kind, p)) && ReleasesEarly(t, Frame(kind, p))
    requires v == Receive(t, p.number % SEQ_SPACE, kind, Some(p))
    ensures q.number in b.stored && q == b.stored[q.number] && q in v.out && Forgotten(v.tbl, q)
    ensures InReach(t.amsdu, OnFrame(b, |t.slots|, p).0.start, Frame(Data, q))
  {
    FrameEmpties(t, b, kind, p, p.number % SEQ_SPACE);
    q := EmptiedForgets(t, b, Some(p), p.number - |t.slots| + 1 - b.start, v);
    SimIsFiled(t, b);
    OnFrameOrdered(b, |t.slots|, p);
    FrameStartStaysNear(b, |t.slots|, p);
  }

  lemma BarForgets(t: Table, b: Buffer, number: int, v: Verdict) returns (q: Packet)
    requires Sim(t, b) && InReach(t.amsdu, b.start, BlockAckReq(number)) && ReleasesEarly(t, BlockAckReq(number))
    requires v == Receive(t, number % SEQ_SPACE, Bar, None)
    ensures q.number in b.stored && q == b.stored[q.number] && q in v.out && Forgotten(v.tbl, q)
    ensures InReach(t.amsdu, OnBar(b, number).0.start, Frame(Data, q))
  {
    BarEmpties(t, b, number);
    q := EmptiedForgets(t, b, None, number - b.start, v);
    SimIsFiled(t, b);
    OnBarOrdered(b, |t.slots|, number);
    BarStartStaysNear(b, |t.slots|, number);
  }

  lemma ProbeInReach(amsdu: bool, winSize: nat, b: Buffer, ev: Event, q: Packet, b1: Buffer)
    requires b1 == On(b, winSize, ev).0
    requires InReach(amsdu, b.start, ev) && InReach(amsdu, b1.start, Frame(Data, q))
    ensures RunInReach(amsdu, winSize, b, [ev] + Probe(q))
  {
    assert RunInReach(amsdu, winSize, On(b1, winSize, Frame(Data, q)).0, [Timeout]);
    assert RunInReach(amsdu, winSize, b1, Probe(q));
    assert ([ev] + Probe(q))[1..] == Probe(q);
  }

  // ------------------------------------------------------------- runs in two parts

  lemma RunCons(t: Table, ev: Event, evs: seq<Event>, v: Verdict)
    requires |t.slots| >= 2 && v == Step(t, ToOp(ev))
    ensures Run(t, ToOps([ev] + evs)).0 == Run(v.tbl, ToOps(evs)).0
    ensures Run(t, ToOps([ev] + evs)).1 == v.out + Run(v.tbl, ToOps(evs)).1
    ensures NeverReleasesEarly(t, [ev] + evs) <==> !ReleasesEarly(t, ev) && NeverReleasesEarly(v.tbl, evs)
  {
    assert ([ev] + evs)[1..] == evs;
    assert ToOps([ev] + evs)[1..] == ToOps(evs);
  }

  lemma {:induction false} RunSplit(t: Table, a: seq<Event>, c: seq<Event>)
    requires |t.slots| >= 2
    ensures var t1 := Run(t, ToOps(a)).0;
      && Run(t, ToOps(a + c)).0 == Run(t1, ToOps(c)).0
      && Run(t, ToOps(a + c)).1 == Run(t, ToOps(a)).1 + Run(t1, ToOps(c)).1
      && (NeverReleasesEarly(t, a + c) <==> NeverReleasesEarly(t, a) && NeverReleasesEarly(t1, c))
    decreases |a|, 1
  {
    if a == [] {
      assert a + c == c;
      assert Run(t, ToOps(a)) == (t, []);
    } else {
      assert a == [a[0]] + a[1..] && a + c == [a[0]] + (a[1..] + c);
      RunSplitCons(t, a[0], a[1..], c, Step(t, ToOp(a[0])));
    }
  }

  lemma {:induction false} RunSplitCons(t: Table, ev: Event, a: seq<Event>, c: seq<Event>, v: Verdict)
    requires |t.slots| >= 2 && v == Step(t, ToOp(ev))
    ensures var t1 := Run(t, ToOps([ev] + a)).0;
      && Run(t, ToOps([ev] + (a + c))).0 == Run(t1, ToOps(c)).0
      && Run(t, ToOps([ev] + (a + c))).1 == Run(t, ToOps([ev] + a)).1 + Run(t1, ToOps(c)).1
      && (NeverReleasesEarly(t, [ev] + (a + c)) <==>
          NeverReleasesEarly(t, [ev] + a) && NeverReleasesEarly(t1, c))
    decreases |a|, 2
  {
    RunCons(t, ev, a, v);
    RunCons(t, ev, a + c, v);
    RunSplit(v.tbl, a, c);
    Associate(v.out, Run(v.tbl, ToOps(a)).1, Run(Run(v.tbl, ToOps(a)).0, ToOps(c)).1);
  }

  lemma Associate(a: seq<Packet>, b: seq<Packet>, c: seq<Packet>)
    ensures a + (b + c) == (a + b) + c
  {}

  lemma {:induction false} InReachSplit(amsdu: bool, winSize: nat, b: Buffer, a: seq<Event>, c: seq<Event>)
    ensures RunInReach(amsdu, winSize, b, a + c) <==>
      RunInReach(amsdu, winSize, b, a) && RunInReach(amsdu, winSize, RunBuffer(b, winSize, a).0, c)
    decreases |a|
  {
    if a == [] {
      assert a + c == c;
    } else {
      assert (a + c)[1..] == a[1..] + c;
      InReachSplit(amsdu, winSize, On(b, winSize, a[0]).0, a[1..], c);
    }
  }

  lemma {:induction false} FirstEarly(t: Table, evs: seq<Event>) returns (i: nat)
    requires |t.slots| >= 2 && !NeverReleasesEarly(t, evs)
    ensures i < |evs| && NeverReleasesEarly(t, evs[..i]) && ReleasesEarly(Run(t, ToOps(evs[..i])).0, evs[i])
    decreases |evs|
  {
    if ReleasesEarly(t, evs[0]) {
      i := 0;
    } else {
      var j := FirstEarly(Step(t, ToOp(evs[0])).tbl, evs[1..]);
      i := j + 1;
      assert evs[..i][1..] == evs[1..][..j];
      assert ToOps(evs[..i])[1..] == ToOps(evs[1..][..j]);
    }
  }

  lemma {:induction false} RunKeepsAmsdu(t: Table, evs: seq<Event>)
    requires |t.slots| >= 2
    ensures Run(t, ToOps(evs)).0.amsdu == t.amsdu
    decreases |evs|
  {
    if evs != [] {
      AmsduStays(t, evs[0]);
      assert ToOps(evs)[1..] == ToOps(evs[1..]);
      RunKeepsAmsdu(Step(t, ToOp(evs[0])).tbl, evs[1..]);
    }
  }

  // ------------------------------------------------------------------- the main result

  /** However the run goes on after any part of it, as long as no later shift releases early, the
      numbers of the delivered frames increase: nothing twice, nothing behind a later frame. */
  ghost predicate DeliversInOrder(t: Table, b: Buffer, evs: seq<Event>)
    requires |t.slots| >= 2
  {
    forall i, more: seq<Event> ::
      0 <= i <= |evs| && RunInReach(t.amsdu, |t.slots|, b, evs[..i] + more)
      && NeverReleasesEarly(Run(t, ToOps(evs[..i])).0, more)
      ==> InOrder(Run(t, ToOps(evs[..i] + more)).1)
  }

  lemma SimIsFiled(t: Table, b: Buffer)
    requires Sim(t, b)
    ensures Filed(b, |t.slots|)
  {}

  lemma RefinedIsInOrder(t: Table, b: Buffer, evs: seq<Event>)
    requires Sim(t, b) && RunInReach(t.amsdu, |t.slots|, b, evs) && NeverReleasesEarly(t, evs)
    ensures InOrder(Run(t, ToOps(evs)).1)
  {
    SimIsFiled(t, b);
    RunRefines(t, b, evs);
    RunBufferOrdered(b, |t.slots|, evs);
  }

  lemma Cut(evs: seq<Event>, i: nat)
    requires i <= |evs|
    ensures evs == evs[..i] + evs[i..]
  {}

  lemma Regroup(a: seq<Event>, b: seq<Event>, c: seq<Event>)
    ensures a + b + c == a + (b + c)
  {}

  lemma NeverEarlyInOrder(t: Table, b: Buffer, evs: seq<Event>)
    requires Sim(t, b) && NeverReleasesEarly(t, evs)
    ensures DeliversInOrder(t, b, evs)
  {
    forall i, more: seq<Event> | 0 <= i <= |evs| && RunInReach(t.amsdu, |t.slots|, b, evs[..i] + more)
        && NeverReleasesEarly(Run(t, ToOps(evs[..i])).0, more)
      ensures InOrder(Run(t, ToOps(evs[..i] + more)).1)
    {
      Cut(evs, i);
      RunSplit(t, evs[..i], evs[i..]);
      RunSplit(t, evs[..i], more);
      RefinedIsInOrder(t, b, evs[..i] + more);
    }
  }

  /** A run that releases early can go on so that the order breaks. */
  lemma EarlyBreaksOrder(t: Table, b: Buffer, evs: seq<Event>) returns (i: nat, more: seq<Event>)
    requires Sim(t, b) && RunInReach(t.amsdu, |t.slots|, b, evs) && !NeverReleasesEarly(t, evs)
    ensures i <= |evs| && RunInReach(t.amsdu, |t.slots|, b, evs[..i] + more)
    ensures NeverReleasesEarly(Run(t, ToOps(evs[..i])).0, more)
    ensures !InOrder(Run(t, ToOps(evs[..i] + more)).1)
  {
    var j := FirstEarly(t, evs);
    PartsOf(evs, j);
    more := EarlyStepBreaksOrder(t, b, evs[..j], evs[j], evs[j + 1..]);
    i := j + 1;
  }

  lemma PartsOf(evs: seq<Event>, j: nat)
    requires j < |evs|
    ensures evs == evs[..j] + ([evs[j]] + evs[j + 1..]) && evs[..j + 1] == evs[..j] + [evs[j]]
  {}

  lemma EarlyStepBreaksOrder(t: Table, b: Buffer, a: seq<Event>, ev: Event, rest: seq<Event>)
    returns (more: seq<Event>)
    requires Sim(t, b) && RunInReach(t.amsdu, |t.slots|, b, a + ([ev] + rest))
    requires NeverReleasesEarly(t, a) && ReleasesEarly(Run(t, ToOps(a)).0, ev)
    ensures RunInReach(t.amsdu, |t.slots|, b, a + [ev] + more)
    ensures NeverReleasesEarly(Run(t, ToOps(a + [ev])).0, more)
    ensures !InOrder(Run(t, ToOps(a + [ev] + more)).1)
  {
    var t1, b1 := Run(t, ToOps(a)).0, RunBuffer(b, |t.slots|, a).0;
    BeforeEarlyStep(t, b, a, ev, rest, t1, b1);
    var q := EarlyReleaseDeliversTwice(t1, b1, ev);
    more := Probe(q);
    Regroup(a, [ev], more);
    InReachSplit(t.amsdu, |t.slots|, b, a, [ev] + Probe(q));
    ProbeAfter(t, a, [ev] + Probe(q), t1);
    OneMore(t, a, ev, t1, Step(t1, ToOp(ev)));
  }

  lemma BeforeEarlyStep(t: Table, b: Buffer, a: seq<Event>, ev: Event, rest: seq<Event>, t1: Table, b1: Buffer)
    requires Sim(t, b) && RunInReach(t.amsdu, |t.slots|, b, a + ([ev] + rest)) && NeverReleasesEarly(t, a)
    requires t1 == Run(t, ToOps(a)).0 && b1 == RunBuffer(b, |t.slots|, a).0
    ensures Sim(t1, b1) && t1.amsdu == t.amsdu && InReach(t.amsdu, b1.start, ev)
    ensures RunInReach(t.amsdu, |t.slots|, b, a)
  {
    InReachSplit(t.amsdu, |t.slots|, b, a, [ev] + rest);
    RunRefines(t, b, a);
    RunKeepsAmsdu(t, a);
  }

  lemma ProbeAfter(t: Table, a: seq<Event>, probe: seq<Event>, t1: Table)
    requires |t.slots| >= 2 && t1 == Run(t, ToOps(a)).0 && !InOrder(Run(t1, ToOps(probe)).1)
    ensures !InOrder(Run(t, ToOps(a + probe)).1)
  {
    RunSplit(t, a, probe);
    OutOfOrderTail(Run(t, ToOps(a)).1, Run(t1, ToOps(probe)).1);
  }

  lemma OutOfOrderTail(a: seq<Packet>, b: seq<Packet>)
    requires !InOrder(b)
    ensures !InOrder(a + b)
  {
    var i, j :| 0 <= i < j < |b| && b[i].number >= b[j].number;
    assert (a + b)[|a| + i] == b[i] && (a + b)[|a| + j] == b[j];
  }

  lemma OneMore(t: Table, a: seq<Event>, ev: Event, t1: Table, v: Verdict)
    requires |t.slots| >= 2 && t1 == Run(t, ToOps(a)).0 && v == Step(t1, ToOp(ev))
    ensures Run(t, ToOps(a + [ev])).0 == v.tbl
  {
    RunSplit(t, a, [ev]);
    RunOne(t1, ev, v);
  }

  lemma RunOne(t: Table, ev: Event, v: Verdict)
    requires |t.slots| >= 2 && v == Step(t, ToOp(ev))
    ensures Run(t, ToOps([ev])).0 == v.tbl && Run(t, ToOps([ev])).1 == v.out
  {
    assert [ev] == [ev] + [];
    RunCons(t, ev, [], v);
    assert Run(v.tbl, ToOps([])) == (v.tbl, []);
    assert v.out + [] == v.out;
  }

  /** In-order safety of the driver's table, exactly: it holds if and only if no shift of the window
      in the run releases early. */
  lemma DeliversInOrderIff(t: Table, b: Buffer, evs: seq<Event>)
    requires Sim(t, b) && RunInReach(t.amsdu, |t.slots|, b, evs)
    ensures DeliversInOrder(t, b, evs) <==> NeverReleasesEarly(t, evs)
  {
    if NeverReleasesEarly(t, evs) {
      NeverEarlyInOrder(t, b, evs);
    } else {
      var i, more := EarlyBreaksOrder(t, b, evs);
      assert RunInReach(t.amsdu, |t.slots|, b, evs[..i] + more);
    }
  }

  function NewTable(winSize: nat, first: int, amsdu: bool): Table {
    Create(first % SEQ_SPACE, None, winSize).(amsdu := amsdu)
  }

  /** The same from the creation of the table on, for every window size and every first number. */
  lemma NewTableDeliversInOrderIff(winSize: nat, first: int, amsdu: bool, evs: seq<Event>)
    requires 2 <= winSize <= 1023 && RunInReach(amsdu, winSize, Buffer(first, map[]), evs)
    ensures DeliversInOrder(NewTable(winSize, first, amsdu), Buffer(first, map[]), evs) <==>
      NeverReleasesEarly(NewTable(winSize, first, amsdu), evs)
    ensures NeverReleasesEarly(NewTable(winSize, first, amsdu), evs) ==>
      Run(NewTable(winSize, first, amsdu), ToOps(evs)).1 == RunBuffer(Buffer(first, map[]), winSize, evs).1
  {
    var t := NewTable(winSize, first, amsdu);
    assert Sim(t, Buffer(first, map[]));
    DeliversInOrderIff(t, Buffer(first, map[]), evs);
    if NeverReleasesEarly(t, evs) { RunRefines(t, Buffer(first, map[]), evs); }
  }

  /** The condition cannot be dropped: a window of four starting at 4095 holds frame 4097; frame
      4099 moves the start across zero by one, 4097 is released at once, and frame 4096, which is
      still inside the window, is delivered after it. */
  lemma EarlyReleaseReorders()
    ensures var t := Table(4095, 4095, [None, None, Some(Packet(4097, 7)), None], false, false, false, true);
      var v1 := Step(t, ToOp(Frame(Data, Packet(4099, 8))));
      && Sim(t, Buffer(4095, map[4097 := Packet(4097, 7)]))
      && ReleasesEarly(t, Frame(Data, Packet(4099, 8)))
      && v1.out == [Packet(4097, 7)]
      && Step(v1.tbl, ToOp(Frame(Data, Packet(4096, 9)))).out == [Packet(4096, 9)]
  {
    var p, q := Packet(4097, 7), Packet(4099, 8);
    var t := Table(4095, 4095, [None, None, Some(p), None], false, false, false, true);
    EarlyStart(t, p, q);
    EarlyStepOne(t, p, q);
    EarlyStepTwo(Step(t, ToOp(Frame(Data, q))).tbl, q);
  }

  lemma EarlyStart(t: Table, p: Packet, q: Packet)
    requires t == Table(4095, 4095, [None, None, Some(p), None], false, false, false, true)
    requires p.number == 4097 && q.number == 4099
    ensures Sim(t, Buffer(4095, map[4097 := p])) && ReleasesEarly(t, Frame(Data, q))
  {
    assert t.slots[1..][1] == Some(p);
  }

  lemma EarlyStepOne(t: Table, p: Packet, q: Packet)
    requires t == Table(4095, 4095, [None, None, Some(p), None], false, false, false, true) && q.number == 4099
    ensures var v := Step(t, ToOp(Frame(Data, q)));
      v.out == [p] && v.tbl.slots == [None, None, None, Some(q)] && v.tbl.start == 0 &&
      !v.tbl.initShift && !v.tbl.forceNoDrop
  {
    ReceiveEarly(t, 3, Data, q, 0);
    ReceiveBeyond(t, 3, Data, q, 0);
    assert t.slots[..4] == [None, None] + ([Some(p)] + [None]);
    Laws.PacketsAppend([None, None], [Some(p)] + [None]);
    Laws.PacketsAppend([Some(p)], [None]);
    Laws.PacketsOfEmpty([None, None]);
    Laws.PacketsOfEmpty([None]);
    var t1 := DispatchUntil(t, 0).0;
    assert RunLength(t1.slots[3 := Some(q)]) == 0;
  }

  lemma EarlyStepTwo(t: Table, q: Packet)
    requires t.slots == [None, None, None, Some(q)] && t.start == 0 && !t.initShift && !t.forceNoDrop
    ensures Step(t, ToOp(Frame(Data, Packet(4096, 9)))).out == [Packet(4096, 9)]
  {
    var s := t.slots[0 := Some(Packet(4096, 9))];
    assert s[1] == None;
    assert s[1..][0] == None;
    assert RunLength(s) == 1;
    assert s[..1] == [Some(Packet(4096, 9))];
    assert Packets(s[..1]) == [Packet(4096, 9)] + Packets([]);
    assert !Dropped(t, 0) && MakeRoom(t, 0, Data) == (t, []);
    assert Admit(t, 0, Data, Some(Packet(4096, 9))).out == [Packet(4096, 9)];
  }
}
