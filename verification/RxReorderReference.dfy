/** The receive buffer of section 9.21.7.6 of IEEE Std 802.11-2012 on unbounded sequence numbers,
    and exactly when the driver's table behaves like it. */
module RxReorderReference {
  import opened Wrappers
  import opened RxReorder
  import Laws = RxReorderLaws

  /** WinStartB and the stored frames by sequence number. */
  datatype Buffer = Buffer(start: int, stored: map<int, Packet>)

  datatype Event = Frame(kind: PktType, p: Packet) | BlockAckReq(number: int) | Timeout

  // ------------------------------------------------------------- the reference

  /** The stored frames numbered lo..hi-1, in order. */
  function Between(m: map<int, Packet>, lo: int, hi: int): seq<Packet>
    decreases hi - lo
  {
    if lo >= hi then [] else (if lo in m then [m[lo]] else []) + Between(m, lo + 1, hi)
  }

  function From(m: map<int, Packet>, lo: int): map<int, Packet> {
    map n | n in m && n >= lo :: m[n]
  }

  /** Pass up frames from WinStartB on until one is missing. */
  function PassUp(b: Buffer): (Buffer, seq<Packet>)
    decreases |b.stored|
  {
    if b.start !in b.stored then (b, [])
    else
      assert |b.stored - {b.start}| < |b.stored| by {
        assert (b.stored - {b.start}).Keys == b.stored.Keys - {b.start};
      }
      var (b', out) := PassUp(Buffer(b.start + 1, b.stored - {b.start}));
      (b', [b.stored[b.start]] + out)
  }

  /** Pass up everything below the new start, then in order from there. */
  function MoveTo(b: Buffer, start: int): (Buffer, seq<Packet>) {
    (Buffer(start, From(b.stored, start)), Between(b.stored, b.start, start))
  }

  function OnFrame(b: Buffer, winSize: nat, p: Packet): (Buffer, seq<Packet>) {
    var n := p.number;
    if n < b.start || n in b.stored then (b, [])
    else if n < b.start + winSize then PassUp(b.(stored := b.stored[n := p]))
    else
      var (b1, out1) := MoveTo(b, n - winSize + 1);
      var (b2, out2) := PassUp(b1.(stored := b1.stored[n := p]));
      (b2, out1 + out2)
  }

  function OnBar(b: Buffer, number: int): (Buffer, seq<Packet>) {
    if number < b.start then (b, [])
    else
      var (b1, out1) := MoveTo(b, number);
      var (b2, out2) := PassUp(b1);
      (b2, out1 + out2)
  }

  /** One past the highest stored number in lo..hi-1, or lo. */
  function Top(m: map<int, Packet>, lo: int, hi: int): (n: int)
    decreases hi - lo
    ensures lo <= hi ==> lo <= n <= hi
  {
    if lo >= hi then lo else if hi - 1 in m then hi else Top(m, lo, hi - 1)
  }

  /** Give up on the holes: pass up everything that is stored. */
  function OnTimeout(b: Buffer, winSize: nat): (Buffer, seq<Packet>) {
    MoveTo(b, Top(b.stored, b.start, b.start + winSize))
  }

  function On(b: Buffer, winSize: nat, ev: Event): (Buffer, seq<Packet>) {
    match ev
    case Frame(_, p) => OnFrame(b, winSize, p)
    case BlockAckReq(n) => OnBar(b, n)
    case Timeout => OnTimeout(b, winSize)
  }

  function RunBuffer(b: Buffer, winSize: nat, evs: seq<Event>): (Buffer, seq<Packet>)
    decreases |evs|
  {
    if evs == [] then (b, [])
    else
      var (b1, out1) := On(b, winSize, evs[0]);
      var (b2, out2) := RunBuffer(b1, winSize, evs[1..]);
      (b2, out1 + out2)
  }

  // ------------------------------------------------------- the two side by side

  function ToOp(ev: Event): Op {
    match ev
    case Frame(kind, p) => Arrive(p.number % SEQ_SPACE, kind, Some(p))
    case BlockAckReq(n) => Arrive(n % SEQ_SPACE, Bar, None)
    case Timeout => TimerExpires
  }

  function ToOps(evs: seq<Event>): (ops: seq<Op>)
    ensures |ops| == |evs|
  {
    if evs == [] then [] else [ToOp(evs[0])] + ToOps(evs[1..])
  }

  function Get(m: map<int, Packet>, n: int): Slot { if n in m then Some(m[n]) else None }

  /** The slots hold exactly the stored frames, slot i the one numbered start + i. */
  ghost predicate Fits(slots: seq<Slot>, m: map<int, Packet>, start: int) {
    && (forall i :: 0 <= i < |slots| ==> slots[i] == Get(m, start + i))
    && (forall n :: n in m ==> start <= n < start + |slots| && m[n].number == n)
  }

  ghost predicate Sim(t: Table, b: Buffer) {
    && 2 <= |t.slots| <= 1023 && 0 <= t.start <= SEQ_SPACE
    && !t.initShift && !t.forceNoDrop
    && t.start % SEQ_SPACE == b.start % SEQ_SPACE
    && Fits(t.slots, b.stored, b.start)
  }

  /** Arrivals the circular comparison can place: within half the circle of the window start. */
  predicate InReach(amsdu: bool, start: int, ev: Event) {
    match ev
    case Frame(kind, p) => -HALF_SPACE <= p.number - start < HALF_SPACE && kind != Bar && (kind == Amsdu ==> amsdu)
    case BlockAckReq(n) => -HALF_SPACE <= n - start < HALF_SPACE
    case Timeout => true
  }

  /** An accepted arrival moves the window by fewer slots than it has, onto a numerically smaller start,
      while something is buffered beyond the new start: those packets go out too early. */
  predicate ReleasesEarly(t: Table, ev: Event) {
    ev != Timeout &&
    var op := ToOp(ev);
    var newStart := ShiftStart(t, op.sn, op.kind);
    var moved := Dist(newStart, t.start);
    !Dropped(t, op.sn) && Shifts(t, op.sn, op.kind) && newStart <= t.start &&
    moved < |t.slots| && !AllEmpty(t.slots[moved..])
  }

  // -------------------------------------------------------------- proof: slots

  lemma {:induction false} PacketsAreBetween(s: seq<Slot>, m: map<int, Packet>, start: int)
    requires forall i :: 0 <= i < |s| ==> s[i] == Get(m, start + i)
    ensures Packets(s) == Between(m, start, start + |s|)
  {
    if s != [] {
      assert s[0] == Get(m, start + 0);
      PacketsAreBetween(s[1..], m, start + 1);
    }
  }

  lemma {:induction false} BetweenSplit(m: map<int, Packet>, lo: int, mid: int, hi: int)
    requires lo <= mid <= hi
    ensures Between(m, lo, hi) == Between(m, lo, mid) + Between(m, mid, hi)
    decreases mid - lo
  {
    if lo < mid { BetweenSplit(m, lo + 1, mid, hi); }
  }

  lemma {:induction false} BetweenNothing(m: map<int, Packet>, lo: int, hi: int)
    requires forall n :: n in m ==> n < lo
    ensures Between(m, lo, hi) == []
    decreases hi - lo
  {
    if lo < hi { BetweenNothing(m, lo + 1, hi); }
  }

  lemma RotateFits(s: seq<Slot>, m: map<int, Packet>, start: int, k: nat)
    requires Fits(s, m, start) && k <= |s|
    ensures Fits(Rotate(s, k), From(m, start + k), start + k)
    ensures Packets(s[..k]) == Between(m, start, start + k)
  {
    PacketsAreBetween(s[..k], m, start);
    var r := Rotate(s, k);
    forall i | 0 <= i < |r| ensures r[i] == Get(From(m, start + k), start + k + i) {
      if i < |s| - k { assert r[i] == s[k + i]; }
    }
  }

  lemma StoreFits(s: seq<Slot>, m: map<int, Packet>, start: int, p: Packet)
    requires Fits(s, m, start) && start <= p.number < start + |s|
    ensures Fits(s[p.number - start := Some(p)], m[p.number := p], start)
  {}

  /** Scanning for the first hole is passing up frames in order. */
  lemma {:induction false} ScanIsPassUp(s: seq<Slot>, m: map<int, Packet>, start: int)
    requires Fits(s, m, start)
    ensures PassUp(Buffer(start, m)).0 == Buffer(start + RunLength(s), From(m, start + RunLength(s)))
    ensures PassUp(Buffer(start, m)).1 == Packets(s[..RunLength(s)])
  {
    if s == [] {
      assert From(m, start) == m;
    } else if s[0].None? {
      assert s[0] == Get(m, start + 0);
      assert From(m, start) == m;
    } else {
      assert s[0] == Get(m, start + 0);
      var m', r := m - {start}, RunLength(s[1..]);
      assert Fits(s[1..], m', start + 1) by {
        forall i | 0 <= i < |s| - 1 ensures s[1..][i] == Get(m', start + 1 + i) {
          assert s[i + 1] == Get(m, start + (i + 1));
        }
      }
      ScanIsPassUp(s[1..], m', start + 1);
      assert From(m', start + 1 + r) == From(m, start + 1 + r);
      assert s[..1 + r][1..] == s[1..][..r];
    }
  }

  lemma ScanSim(t: Table, b: Buffer)
    requires Sim(t, b)
    ensures Sim(Scan(t).0, PassUp(b).0) && Scan(t).1 == PassUp(b).1
  {
    var r := RunLength(t.slots);
    ScanIsPassUp(t.slots, b.stored, b.start);
    RotateFits(t.slots, b.stored, b.start, r);
    SameWrap(t.start, b.start, r);
  }

  // -------------------------------------------------------- proof: window moves

  // On the unbounded line the window moves by `start - b.start`; the table's own move matches unless
  // it is one of the early releases.

  /** A move past the whole window releases everything. */
  lemma MoveFarSim(t: Table, b: Buffer, start: int, newStart: int)
    requires Sim(t, b) && newStart == start % SEQ_SPACE && |t.slots| <= start - b.start < SEQ_SPACE
    ensures var (t', out) := DispatchUntil(t, newStart); Sim(t', MoveTo(b, start).0) && out == MoveTo(b, start).1
  {
    var w := |t.slots|;
    DistOnLine(start, b.start, newStart, t.start);
    assert SendCount(t.start, newStart, w) == w;
    RotateFits(t.slots, b.stored, b.start, w);
    BetweenSplit(b.stored, b.start, b.start + w, start);
    BetweenNothing(b.stored, b.start + w, start);
  }

  /** A move across 4095 -> 0 releases all slots, which are empty from `d` on. */
  lemma ReleaseAllSim(slots: seq<Slot>, d: nat)
    requires d <= |slots| && AllEmpty(slots[d..])
    ensures Packets(slots[..|slots|]) == Packets(slots[..d]) && Rotate(slots, |slots|) == Rotate(slots, d)
  {
    assert slots == slots[..d] + slots[d..] && slots[..|slots|] == slots;
    Laws.PacketsAppend(slots[..d], slots[d..]);
    Laws.PacketsOfEmpty(slots[d..]);
  }

  lemma MoveNearSim(t: Table, b: Buffer, start: int, newStart: int)
    requires Sim(t, b) && newStart == start % SEQ_SPACE && 0 < start - b.start < |t.slots| < SEQ_SPACE
    requires newStart > t.start || AllEmpty(t.slots[start - b.start..])
    ensures var (t', out) := DispatchUntil(t, newStart); Sim(t', MoveTo(b, start).0) && out == MoveTo(b, start).1
  {
    var w, d := |t.slots|, start - b.start;
    DistOnLine(start, b.start, newStart, t.start);
    assert SendCount(t.start, newStart, w) == if newStart > t.start then d else w;
    RotateFits(t.slots, b.stored, b.start, d);
    if newStart <= t.start { ReleaseAllSim(t.slots, d); }
  }

  lemma MoveSimTo(t: Table, b: Buffer, start: int, newStart: int)
    requires Sim(t, b) && 0 < start - b.start < SEQ_SPACE && newStart == start % SEQ_SPACE
    requires newStart > t.start || start - b.start >= |t.slots| || AllEmpty(t.slots[start - b.start..])
    ensures var (t', out) := DispatchUntil(t, newStart); Sim(t', MoveTo(b, start).0) && out == MoveTo(b, start).1
  {
    if start - b.start >= |t.slots| {
      MoveFarSim(t, b, start, newStart);
    } else {
      MoveNearSim(t, b, start, newStart);
    }
  }

  // --------------------------------------------------------------- proof: steps

  lemma NothingMoves(b: Buffer, w: nat)
    requires forall n :: n in b.stored ==> b.start <= n < b.start + w
    ensures MoveTo(b, b.start) == (b, [])
  {
    assert From(b.stored, b.start) == b.stored;
  }

  lemma WrapOnce(number: int)
    ensures (number + SEQ_SPACE) % SEQ_SPACE == number % SEQ_SPACE
  {}

  lemma StoreSim(t: Table, b: Buffer, p: Packet)
    requires Sim(t, b) && b.start <= p.number < b.start + |t.slots|
    ensures Dist(p.number % SEQ_SPACE, t.start) == p.number - b.start
    ensures Sim(t.(slots := t.slots[p.number - b.start := Some(p)]), b.(stored := b.stored[p.number := p]))
  {
    DistOnLine(p.number, b.start, p.number % SEQ_SPACE, t.start);
    StoreFits(t.slots, b.stored, b.start, p);
  }

  lemma FrameInWindow(t: Table, b: Buffer, kind: PktType, p: Packet)
    requires Sim(t, b) && InReach(t.amsdu, b.start, Frame(kind, p)) && p.number < b.start + |t.slots|
    ensures var v := Receive(t, p.number % SEQ_SPACE, kind, Some(p));
      Sim(v.tbl, OnFrame(b, |t.slots|, p).0) && v.out == OnFrame(b, |t.slots|, p).1
  {
    var sn, d := p.number % SEQ_SPACE, p.number - b.start;
    if d < 0 {
      WrapOnce(p.number);
      DistOnLine(p.number + SEQ_SPACE, b.start, sn, t.start);
    } else {
      FrameHere(t, b, kind, p, sn);
    }
  }

  lemma FrameHere(t: Table, b: Buffer, kind: PktType, p: Packet, sn: int)
    requires Sim(t, b) && InReach(t.amsdu, b.start, Frame(kind, p)) && sn == p.number % SEQ_SPACE
    requires b.start <= p.number < b.start + |t.slots|
    ensures var v := Receive(t, sn, kind, Some(p));
      Sim(v.tbl, OnFrame(b, |t.slots|, p).0) && v.out == OnFrame(b, |t.slots|, p).1
  {
    var d := p.number - b.start;
    DistOnLine(p.number, b.start, sn, t.start);
    assert t.slots[d] == Get(b.stored, b.start + d);
    if p.number !in b.stored {
      FrameStored(t, b, kind, p, sn);
    }
  }

  lemma FrameStored(t: Table, b: Buffer, kind: PktType, p: Packet, sn: int)
    requires Sim(t, b) && InReach(t.amsdu, b.start, Frame(kind, p)) && sn == p.number % SEQ_SPACE
    requires b.start <= p.number < b.start + |t.slots| && p.number !in b.stored
    requires Dist(sn, t.start) == p.number - b.start && t.slots[p.number - b.start] == None
    ensures var v := Receive(t, sn, kind, Some(p));
      Sim(v.tbl, OnFrame(b, |t.slots|, p).0) && v.out == OnFrame(b, |t.slots|, p).1
  {
    StoreSim(t, b, p);
    ScanSim(t.(slots := t.slots[p.number - b.start := Some(p)]), b.(stored := b.stored[p.number := p]));
  }

  lemma BeyondWindow(sn: int, number: int, tStart: int, start: int, w: int)
    requires 2 <= w <= 1023 && tStart % SEQ_SPACE == start % SEQ_SPACE && sn == number % SEQ_SPACE
    requires w <= number - start < HALF_SPACE
    ensures Dist(sn, tStart) == number - start
    ensures (sn - w + 1) % SEQ_SPACE == (number - w + 1) % SEQ_SPACE
    ensures Dist((sn - w + 1) % SEQ_SPACE, tStart) == number - w + 1 - start
  {
    DistOnLine(number, start, sn, tStart);
    SameWrap(sn, number, 1 - w);
    DistOnLine(number - w + 1, start, (sn - w + 1) % SEQ_SPACE, tStart);
  }

  /** What an accepted frame beyond the window does to the table. */
  lemma ReceiveBeyond(t: Table, sn: int, kind: PktType, p: Packet, newStart: int)
    requires newStart == ShiftStart(t, sn, kind)
    requires 2 <= |t.slots| <= 1023 && !t.initShift && !t.forceNoDrop && kind != Bar && (kind == Amsdu ==> t.amsdu)
    requires |t.slots| <= Dist(sn, t.start) < HALF_SPACE
    ensures var w, m := |t.slots|, DispatchUntil(t, newStart);
      var r := Scan(m.0.(slots := m.0.slots[w - 1 := Some(p)]));
      && Dist(sn, m.0.start) == w - 1
      && (m.0.slots[w - 1].None? ==> Receive(t, sn, kind, Some(p)) == Verdict(r.0.(timerSet := true), 0, m.1 + r.1))
  {
    DistOnLine(sn, sn - |t.slots| + 1, sn, newStart);
    assert MakeRoom(t, sn, kind) == DispatchUntil(t, newStart);
    var t1 := DispatchUntil(t, newStart).0;
    assert Process(t, sn, kind, Some(p)).tbl == Admit(t1, sn, kind, Some(p)).tbl;
  }

  lemma FrameBeyondWindow(t: Table, b: Buffer, kind: PktType, p: Packet)
    requires Sim(t, b) && InReach(t.amsdu, b.start, Frame(kind, p)) && p.number >= b.start + |t.slots|
    requires !ReleasesEarly(t, Frame(kind, p))
    ensures var v := Receive(t, p.number % SEQ_SPACE, kind, Some(p));
      Sim(v.tbl, OnFrame(b, |t.slots|, p).0) && v.out == OnFrame(b, |t.slots|, p).1
  {
    var sn, start := p.number % SEQ_SPACE, p.number - |t.slots| + 1;
    BeyondWindow(sn, p.number, t.start, b.start, |t.slots|);
    MoveSimTo(t, b, start, ShiftStart(t, sn, kind));
    AfterMove(t, b, sn, kind, p, ShiftStart(t, sn, kind), DispatchUntil(t, ShiftStart(t, sn, kind)), MoveTo(b, start));
  }

  /** A frame beyond the window, once `m` and `r` are the moves on both sides. */
  lemma AfterMove(t: Table, b: Buffer, sn: int, kind: PktType, p: Packet, newStart: int,
                  m: (Table, seq<Packet>), r: (Buffer, seq<Packet>))
    requires newStart == ShiftStart(t, sn, kind)
    requires 2 <= |t.slots| <= 1023 && !t.initShift && !t.forceNoDrop && kind != Bar && (kind == Amsdu ==> t.amsdu)
    requires |t.slots| <= Dist(sn, t.start) < HALF_SPACE
    requires p.number >= b.start + |t.slots| && p.number !in b.stored
    requires m == DispatchUntil(t, newStart) && r == MoveTo(b, p.number - |t.slots| + 1)
    requires Sim(m.0, r.0) && m.1 == r.1
    ensures var v := Receive(t, sn, kind, Some(p));
      Sim(v.tbl, OnFrame(b, |t.slots|, p).0) && v.out == OnFrame(b, |t.slots|, p).1
  {
    var v := ReceiveAfterMove(t, sn, kind, p, newStart, m, r.0, PassUp(r.0.(stored := r.0.stored[p.number := p])));
    OnFrameBeyond(b, |t.slots|, p);
  }

  /** The table's side of it; `q` is what the buffer passes up after the move. */
  lemma ReceiveAfterMove(t: Table, sn: int, kind: PktType, p: Packet, newStart: int,
                         m: (Table, seq<Packet>), b: Buffer, q: (Buffer, seq<Packet>))
    returns (v: Verdict)
    requires newStart == ShiftStart(t, sn, kind)
    requires 2 <= |t.slots| <= 1023 && !t.initShift && !t.forceNoDrop && kind != Bar && (kind == Amsdu ==> t.amsdu)
    requires |t.slots| <= Dist(sn, t.start) < HALF_SPACE
    requires m == DispatchUntil(t, newStart) && Sim(m.0, b)
    requires p.number == b.start + |t.slots| - 1 && p.number !in b.stored
    requires q == PassUp(b.(stored := b.stored[p.number := p]))
    ensures Sim(v.tbl, q.0) && v.out == m.1 + q.1
    ensures Receive(t, sn, kind, Some(p)) == v
  {
    StoreAndScan(m.0, b, p);
    var r := Scan(m.0.(slots := m.0.slots[|t.slots| - 1 := Some(p)]));
    v := Verdict(r.0.(timerSet := true), 0, m.1 + r.1);
    ReceiveBeyond(t, sn, kind, p, newStart);
  }

  lemma OnFrameBeyond(b: Buffer, winSize: nat, p: Packet)
    requires p.number >= b.start + winSize && p.number !in b.stored
    ensures var m := MoveTo(b, p.number - winSize + 1);
      var r := PassUp(m.0.(stored := m.0.stored[p.number := p]));
      OnFrame(b, winSize, p) == (r.0, m.1 + r.1)
  {}

  /** The frame that moved the window goes into its last slot. */
  lemma StoreAndScan(t1: Table, b1: Buffer, p: Packet)
    requires Sim(t1, b1) && p.number == b1.start + |t1.slots| - 1 && p.number !in b1.stored
    ensures var w := |t1.slots|;
      var v := Scan(t1.(slots := t1.slots[w - 1 := Some(p)]));
      var r := PassUp(b1.(stored := b1.stored[p.number := p]));
      t1.slots[w - 1].None? && Sim(v.0.(timerSet := true), r.0) && v.1 == r.1
  {
    var w := |t1.slots|;
    assert t1.slots[w - 1] == Get(b1.stored, b1.start + (w - 1));
    StoreSim(t1, b1, p);
    ScanSim(t1.(slots := t1.slots[w - 1 := Some(p)]), b1.(stored := b1.stored[p.number := p]));
  }

  /** What an accepted BAR ahead of the window start does to the table. */
  lemma ReceiveBar(t: Table, sn: int)
    requires 2 <= |t.slots| <= 1023 && !t.initShift && !t.forceNoDrop && 0 <= sn < SEQ_SPACE
    requires 0 < Dist(sn, t.start) < HALF_SPACE
    ensures var m := DispatchUntil(t, sn);
      var r := Scan(m.0);
      Receive(t, sn, Bar, None) == Verdict(r.0.(timerSet := true), 0, m.1 + r.1)
    ensures Shifts(t, sn, Bar) && ShiftStart(t, sn, Bar) == sn
  {
    Laws.BarMovesStart(t, sn);
    BarShifts(t, sn);
  }

  lemma BarAhead(t: Table, b: Buffer, number: int, sn: int)
    requires Sim(t, b) && 0 < number - b.start < HALF_SPACE && sn == number % SEQ_SPACE
    requires sn > t.start || number - b.start >= |t.slots| || AllEmpty(t.slots[number - b.start..])
    ensures var v := Receive(t, sn, Bar, None);
      Sim(v.tbl, OnBar(b, number).0) && v.out == OnBar(b, number).1
  {
    DistOnLine(number, b.start, sn, t.start);
    ReceiveBar(t, sn);
    MoveSimTo(t, b, number, sn);
    ScanSim(DispatchUntil(t, sn).0, MoveTo(b, number).0);
  }

  lemma EarlyBarCondition(t: Table, b: Buffer, number: int, sn: int)
    requires Sim(t, b) && 0 < number - b.start < HALF_SPACE && sn == number % SEQ_SPACE
    ensures ReleasesEarly(t, BlockAckReq(number)) <==>
      !(sn > t.start || number - b.start >= |t.slots| || AllEmpty(t.slots[number - b.start..]))
    ensures Dist(sn, t.start) == number - b.start
  {
    DistOnLine(number, b.start, sn, t.start);
    BarShifts(t, sn);
    EarlyBarAt(t, number, sn, number - b.start);
  }

  lemma BarShifts(t: Table, sn: int)
    requires 2 <= |t.slots| <= 1023 && !t.initShift && !t.forceNoDrop && 0 <= sn < SEQ_SPACE
    requires 0 < Dist(sn, t.start) < HALF_SPACE
    ensures Shifts(t, sn, Bar) && ShiftStart(t, sn, Bar) == sn
  {
    Laws.BarDist(sn, t.start, |t.slots|);
  }

  lemma EarlyBarAt(t: Table, number: int, sn: int, d: int)
    requires !t.initShift && !t.forceNoDrop && sn == number % SEQ_SPACE && d == Dist(sn, t.start) && 0 < d < HALF_SPACE
    requires Shifts(t, sn, Bar) && ShiftStart(t, sn, Bar) == sn
    ensures ReleasesEarly(t, BlockAckReq(number)) <==> !(sn > t.start || d >= |t.slots| || AllEmpty(t.slots[d..]))
  {
    assert StartFor(t, sn) == t.start && !Dropped(t, sn);
    assert ToOp(BlockAckReq(number)).sn == sn;
  }

  lemma BarHere(t: Table, b: Buffer, sn: int)
    requires Sim(t, b) && sn == b.start % SEQ_SPACE
    ensures var v := Receive(t, sn, Bar, None);
      Sim(v.tbl, OnBar(b, b.start).0) && v.out == OnBar(b, b.start).1
  {
    DistOnLine(b.start, b.start, sn, t.start);
    Laws.BarMovesStart(t, sn);
    NothingMoves(b, |t.slots|);
    ScanSim(t, b);
  }

  lemma BarSim(t: Table, b: Buffer, number: int)
    requires Sim(t, b) && InReach(t.amsdu, b.start, BlockAckReq(number)) && !ReleasesEarly(t, BlockAckReq(number))
    ensures var v := Receive(t, number % SEQ_SPACE, Bar, None);
      Sim(v.tbl, OnBar(b, number).0) && v.out == OnBar(b, number).1
  {
    var sn, d := number % SEQ_SPACE, number - b.start;
    if d < 0 {
      WrapOnce(number);
      DistOnLine(number + SEQ_SPACE, b.start, sn, t.start);
    } else if d == 0 {
      BarHere(t, b, sn);
    } else {
      EarlyBarCondition(t, b, number, sn);
      BarAhead(t, b, number, sn);
    }
  }

  lemma {:induction false} TopIsFilledEnd(s: seq<Slot>, m: map<int, Packet>, start: int)
    requires forall i :: 0 <= i < |s| ==> s[i] == Get(m, start + i)
    ensures Top(m, start, start + |s|) == start + FilledEnd(s)
    decreases |s|
  {
    if s != [] {
      assert s[|s| - 1] == Get(m, start + (|s| - 1));
      if s[|s| - 1].None? { TopIsFilledEnd(s[..|s| - 1], m, start); }
    }
  }

  lemma TimeoutMoves(t: Table, b: Buffer, n: nat, newStart: int)
    requires Sim(t, b) && 0 < n == FilledEnd(t.slots) && newStart == (t.start + n) % SEQ_SPACE
    requires Top(b.stored, b.start, b.start + |t.slots|) == b.start + n
    ensures Sim(Flush(t).0, OnTimeout(b, |t.slots|).0) && Flush(t).1 == OnTimeout(b, |t.slots|).1
  {
    SameWrap(t.start, b.start, n);
    Laws.FlushIsMove(t, n, newStart);
    MoveSimTo(t.(timerSet := false), b, b.start + n, newStart);
  }

  lemma TimeoutSim(t: Table, b: Buffer)
    requires Sim(t, b)
    ensures Sim(Flush(t).0, OnTimeout(b, |t.slots|).0) && Flush(t).1 == OnTimeout(b, |t.slots|).1
  {
    TopIsFilledEnd(t.slots, b.stored, b.start);
    if FilledEnd(t.slots) == 0 {
      NothingMoves(b, |t.slots|);
    } else {
      TimeoutMoves(t, b, FilledEnd(t.slots), (t.start + FilledEnd(t.slots)) % SEQ_SPACE);
    }
  }

  lemma StepSim(t: Table, b: Buffer, ev: Event)
    requires Sim(t, b) && InReach(t.amsdu, b.start, ev) && !ReleasesEarly(t, ev)
    ensures var v := Step(t, ToOp(ev));
      var (b', out) := On(b, |t.slots|, ev);
      Sim(v.tbl, b') && v.out == out
  {
    match ev
    case Frame(kind, p) =>
      if p.number < b.start + |t.slots| { FrameInWindow(t, b, kind, p); } else { FrameBeyondWindow(t, b, kind, p); }
    case BlockAckReq(n) => BarSim(t, b, n);
    case Timeout => TimeoutSim(t, b);
  }
}
