/** What the receive reorder table promises: the C comparisons are exact circular arithmetic,
    no packet is lost or duplicated, and every release is in slot order. */
module RxReorderLaws {
  import opened Wrappers
  import opened RxReorder

  // ------------------------------------------------- the comparisons of the driver

  /** The test for an old frame, as the driver writes it. */
  predicate OldTest(start: int, sn: int) {
    if start + HALF_SPACE > SEQ_SPACE - 1
    then sn >= (start + HALF_SPACE) % SEQ_SPACE && sn < start
    else sn < start || sn >= start + HALF_SPACE
  }

  /** The test for a frame outside the window, as the driver writes it. */
  predicate OutsideTest(start: int, end: int, sn: int) {
    || (end < start && sn < start && sn > end)
    || (end > start && (sn > end || sn < start))
  }

  function EndOf(start: int, winSize: int): int { (start + winSize - 1) % SEQ_SPACE }

  function StartEndingAt(end: int, winSize: int): int {
    if end - winSize + 1 >= 0 then end - winSize + 1 else SEQ_SPACE - (winSize - end) + 1
  }

  lemma OldTestExact(start: int, sn: int)
    requires 0 <= start <= SEQ_SPACE && 0 <= sn < SEQ_SPACE
    ensures OldTest(start, sn) <==> Dist(sn, start) >= HALF_SPACE
  {}

  lemma StartEndingAtExact(end: int, winSize: int)
    requires 0 <= end < SEQ_SPACE && 1 <= winSize <= 1023
    ensures StartEndingAt(end, winSize) == (end - winSize + 1) % SEQ_SPACE
  {}

  lemma OutsideTestExact(start: int, winSize: int, sn: int)
    requires 0 <= start <= SEQ_SPACE && 0 <= sn < SEQ_SPACE && 2 <= winSize <= 1023
    ensures OutsideTest(start, EndOf(start, winSize), sn) <==> Dist(sn, start) >= winSize
  {}

  ghost predicate OutsideTestIsExactFor(winSize: int) {
    forall start, sn :: 0 <= start < SEQ_SPACE && 0 <= sn < SEQ_SPACE ==>
      (OutsideTest(start, EndOf(start, winSize), sn) <==> Dist(sn, start) >= winSize)
  }

  /** For a negotiated window of one slot or none the test misses frames outside the window, and for
      every other size it is exact. */
  lemma OutsideTestExactIff(winSize: int)
    requires 0 <= winSize <= 1023
    ensures OutsideTestIsExactFor(winSize) <==> winSize >= 2
  {
    if winSize >= 2 {
      forall start, sn | 0 <= start < SEQ_SPACE && 0 <= sn < SEQ_SPACE
        ensures OutsideTest(start, EndOf(start, winSize), sn) <==> Dist(sn, start) >= winSize
      {
        OutsideTestExact(start, winSize, sn);
      }
    } else {
      assert !OutsideTest(0, EndOf(0, winSize), 1) && Dist(1, 0) >= winSize;
    }
  }

  /** The window test for every window size that an ADDBA request can hold */
  lemma OutsideTestDecides(start: int, winSize: int, sn: int)
    requires 0 <= start <= SEQ_SPACE && 0 <= sn < SEQ_SPACE && 0 <= winSize <= 1023
    ensures OutsideTest(start, EndOf(start, winSize), sn) <==> CanShift(winSize, start) && Dist(sn, start) >= winSize
  {
    if winSize >= 2 { OutsideTestExact(start, winSize, sn); }
  }

  /** Where the driver stores a frame that it does not drop. */
  function StoreIndex(start: int, winSize: int, sn: int): int {
    var newStart := if OutsideTest(start, EndOf(start, winSize), sn) then StartEndingAt(sn, winSize) else start;
    if sn >= newStart then sn - newStart else sn + SEQ_SPACE - newStart
  }

  lemma StoreIndexInArray(start: int, winSize: int, sn: int)
    requires 0 <= start <= SEQ_SPACE && 0 <= sn < SEQ_SPACE && 2 <= winSize <= 1023
    ensures 0 <= StoreIndex(start, winSize, sn) < winSize
  {
    OutsideTestExact(start, winSize, sn);
    StartEndingAtExact(sn, winSize);
  }

  ghost predicate StoresInArray(winSize: int) {
    forall start, sn :: 0 <= start <= SEQ_SPACE && 0 <= sn < SEQ_SPACE && !OldTest(start, sn) ==>
      0 <= StoreIndex(start, winSize, sn) < winSize
  }

  /** Every frame that is not too old is stored in the array, if and only if the window has at least
      two slots. */
  lemma StoresInArrayIff(winSize: int)
    requires 0 <= winSize <= 1023
    ensures StoresInArray(winSize) <==> winSize >= 2
  {
    if winSize >= 2 {
      forall start, sn | 0 <= start <= SEQ_SPACE && 0 <= sn < SEQ_SPACE && !OldTest(start, sn)
        ensures 0 <= StoreIndex(start, winSize, sn) < winSize
      {
        StoreIndexInArray(start, winSize, sn);
      }
    } else {
      OutsideTestDecides(0, winSize, 1);
      assert !OldTest(0, 1) && StoreIndex(0, winSize, 1) == 1;
    }
  }

  /** Without flags: a data frame is refused exactly when it lies in the older half of the circle
      or its slot is taken; the window moves exactly when the frame lies beyond it, and then so
      that the frame is its last sequence number; after an accepted frame slot 0 is empty. */
  lemma DataWindowRule(t: Table, sn: int, kind: PktType, payload: Slot)
    requires Inv(t) && WireFormat(Arrive(sn, kind, payload))
    requires !t.initShift && !t.forceNoDrop && kind != Bar && (kind == Amsdu ==> t.amsdu)
    ensures var d, w, v, m := Dist(sn, t.start), |t.slots|, Receive(t, sn, kind, payload), MakeRoom(t, sn, kind).0;
      && v.ret == (if d >= HALF_SPACE || (d < w && t.slots[d].Some?) then -1 else 0)
      && (v.ret == 0 ==> v.tbl.slots[0].None?)
      && m.start == (if d < w then t.start else (sn - w + 1) % SEQ_SPACE)
      && (d < w ==> m.slots == t.slots)
  {
    MakeRoomKeepsInv(t, sn, kind);
    AdmitKeepsInv(MakeRoom(t, sn, kind).0, sn, kind, payload);
    if Shifts(t, sn, kind) { ShiftedWindowHasRoom(t, sn, kind); }
  }

  /** Without flags: a BAR is refused exactly when it lies in the older half of the circle, and an
      accepted one makes its own number the window start before the scan. */
  lemma BarWindowRule(t: Table, sn: int, payload: Slot)
    requires Inv(t) && WireFormat(Arrive(sn, Bar, payload))
    requires !t.initShift && !t.forceNoDrop
    ensures var v := Receive(t, sn, Bar, payload);
      && v.ret == (if Dist(sn, t.start) >= HALF_SPACE then -1 else 0)
      && (v.ret == 0 ==> v.tbl.slots[0].None? && MakeRoom(t, sn, Bar).0.start % SEQ_SPACE == sn)
  {
    if Dist(sn, t.start) < HALF_SPACE {
      BarMovesStart(t, sn);
      MakeRoomKeepsInv(t, sn, Bar);
      AdmitKeepsInv(MakeRoom(t, sn, Bar).0, sn, Bar, payload);
    }
  }

  /** What making room does, from the start the tests use and the number that has to be covered. */
  lemma RoomFor(t0: Table, sn: int, kind: PktType, t: Table, last: int)
    requires t == t0.(initShift := false, forceNoDrop := false, start := StartFor(t0, sn))
    requires last == LastCovered(t0, sn, kind)
    ensures var shifts := CanShift(|t.slots|, t.start) && Dist(last, t.start) >= |t.slots|;
      shifts == Shifts(t0, sn, kind) &&
      MakeRoom(t0, sn, kind) == if shifts then DispatchUntil(t, (last - |t.slots| + 1) % SEQ_SPACE) else (t, [])
  {}

  lemma BarMovesStart(t: Table, sn: int)
    requires 2 <= |t.slots| <= 1023 && !t.initShift && 0 <= sn < SEQ_SPACE && Dist(sn, t.start) < HALF_SPACE
    ensures MakeRoom(t, sn, Bar).0.start % SEQ_SPACE == sn
    ensures Shifts(t, sn, Bar) <==> Dist(sn, t.start) > 0
    ensures Shifts(t, sn, Bar) ==> MakeRoom(t, sn, Bar).0.start == sn
  {
    var last := LastCovered(t, sn, Bar);
    BarDist(sn, t.start, |t.slots|);
    RoomFor(t, sn, Bar, t.(initShift := false, forceNoDrop := false), last);
    if Dist(sn, t.start) == 0 { AtStart(sn, t.start); }
  }

  lemma AtStart(sn: int, start: int)
    requires 0 <= sn < SEQ_SPACE && Dist(sn, start) == 0
    ensures start % SEQ_SPACE == sn
  {}

  lemma BarDist(sn: int, start: int, w: int)
    requires 2 <= w <= 1023 && 0 <= sn < SEQ_SPACE && Dist(sn, start) < HALF_SPACE
    ensures Dist((sn + w - 1) % SEQ_SPACE, start) == Dist(sn, start) + w - 1
    ensures ((sn + w - 1) % SEQ_SPACE - w + 1) % SEQ_SPACE == sn
  {}

  /** A move of the window always frees its last slot, which is where the arrival goes. */
  lemma ShiftedWindowHasRoom(t: Table, sn: int, kind: PktType)
    requires Inv(t) && 0 <= sn < SEQ_SPACE && kind != Bar && Shifts(t, sn, kind)
    ensures var t1 := MakeRoom(t, sn, kind).0; t1.slots[Dist(sn, t1.start)].None?
  {
    var t1 := MakeRoom(t, sn, kind).0;
    assert Dist(sn, t1.start) == |t.slots| - 1;
  }

  // ------------------------------------------------------------- conservation

  lemma {:induction false} PacketsAppend(a: seq<Slot>, b: seq<Slot>)
    ensures Packets(a + b) == Packets(a) + Packets(b)
  {
    if a == [] {
      assert a + b == b;
    } else {
      var head := if a[0].Some? then [a[0].value] else [];
      assert (a + b)[1..] == a[1..] + b;
      PacketsAppend(a[1..], b);
      assert head + (Packets(a[1..]) + Packets(b)) == (head + Packets(a[1..])) + Packets(b);
    }
  }

  lemma {:induction false} PacketsOfEmpty(s: seq<Slot>)
    requires AllEmpty(s)
    ensures Packets(s) == []
  {
    if s != [] { PacketsOfEmpty(s[1..]); }
  }

  lemma PacketsSplit(s: seq<Slot>, k: nat)
    requires k <= |s|
    ensures Packets(s) == Packets(s[..k]) + Packets(Rotate(s, k))
  {
    var older, newer := s[..k], s[k..];
    assert s == older + newer;
    PacketsAppend(older, newer);
    PacketsPadded(newer, k);
  }

  lemma PacketsPadded(s: seq<Slot>, k: nat)
    ensures Packets(s + Empties(k)) == Packets(s)
  {
    PacketsAppend(s, Empties(k));
    PacketsOfEmpty(Empties(k));
    assert Packets(s) + [] == Packets(s);
  }

  /** A move of the window releases the oldest packets and keeps the rest, in order. */
  lemma DispatchUntilConserves(t: Table, newStart: int)
    ensures var (t', out) := DispatchUntil(t, newStart); out + Packets(t'.slots) == Packets(t.slots)
  {
    PacketsSplit(t.slots, SendCount(t.start, newStart, |t.slots|));
  }

  lemma ScanConserves(t: Table)
    ensures var (t', out) := Scan(t); out + Packets(t'.slots) == Packets(t.slots)
  {
    PacketsSplit(t.slots, RunLength(t.slots));
  }

  lemma StoreAdds(s: seq<Slot>, i: nat, p: Slot)
    requires i < |s| && s[i].None?
    ensures multiset(Packets(s[i := p])) == multiset(Packets(s)) + multiset(Opt(p))
  {
    assert s == s[..i] + ([s[i]] + s[i + 1..]) && s[i := p] == s[..i] + ([p] + s[i + 1..]);
    PacketsAppend(s[..i], [s[i]] + s[i + 1..]);
    PacketsAppend(s[..i], [p] + s[i + 1..]);
    PacketsAppend([s[i]], s[i + 1..]);
    PacketsAppend([p], s[i + 1..]);
  }

  lemma FlushCount(start: int, n: nat, w: nat)
    requires 0 <= start <= SEQ_SPACE && 1 <= n <= w <= 1023
    ensures SendCount(start, (start + n) % SEQ_SPACE, w) >= n
  {}

  /** The timer releases every buffered packet, in slot order, and leaves the table empty. */
  lemma FlushReleasesAll(t: Table)
    requires |t.slots| <= 1023 && 0 <= t.start <= SEQ_SPACE
    ensures Flush(t).1 == Packets(t.slots) && AllEmpty(Flush(t).0.slots)
  {
    var n := FilledEnd(t.slots);
    if n == 0 {
      PacketsOfEmpty(t.slots);
    } else {
      var newStart := (t.start + n) % SEQ_SPACE;
      FlushCount(t.start, n, |t.slots|);
      FlushIsMove(t, n, newStart);
      MovePastFilled(t.(timerSet := false), n, newStart);
    }
  }

  lemma FlushIsMove(t: Table, n: nat, newStart: int)
    requires 0 < n == FilledEnd(t.slots) && newStart == (t.start + n) % SEQ_SPACE
    ensures Flush(t) == DispatchUntil(t.(timerSet := false), newStart)
  {}

  /** A move that releases at least the filled slots releases everything. */
  lemma MovePastFilled(t: Table, n: nat, newStart: int)
    requires n == FilledEnd(t.slots) <= SendCount(t.start, newStart, |t.slots|)
    ensures DispatchUntil(t, newStart).1 == Packets(t.slots) && AllEmpty(DispatchUntil(t, newStart).0.slots)
  {
    var t' := DispatchUntil(t, newStart).0;
    assert AllEmpty(t'.slots);
    DispatchUntilConserves(t, newStart);
    PacketsOfEmpty(t'.slots);
  }

  /** Deletion releases every buffered packet, in slot order. */
  lemma DeleteReleasesAll(t: Table, newStart: int)
    requires |t.slots| <= 1023 && 0 <= t.start <= SEQ_SPACE && newStart == (t.start + |t.slots|) % SEQ_SPACE
    ensures Delete(t) == Packets(t.slots) && AllEmpty(DispatchUntil(t, newStart).0.slots)
  {
    DispatchUntilConserves(t, newStart);
    PacketsOfEmpty(DispatchUntil(t, newStart).0.slots);
  }

  /** The payload a call has taken over for good: BARs are freed by the caller, and so is a frame
      that was refused. */
  function Taken(op: Op, ret: int): seq<Packet> {
    if op.Arrive? && op.kind != Bar && ret == 0 then Opt(op.payload) else []
  }

  predicate SameWindow(t: Table, t': Table) { t'.start == t.start && t'.slots == t.slots }

  lemma MakeRoomConserves(t: Table, sn: int, kind: PktType)
    ensures var (t1, out) := MakeRoom(t, sn, kind); out + Packets(t1.slots) == Packets(t.slots)
  {
    if Shifts(t, sn, kind) {
      DispatchUntilConserves(t.(start := StartFor(t, sn), initShift := false, forceNoDrop := false),
                             ShiftStart(t, sn, kind));
    }
  }

  predicate Conserved(before: seq<Packet>, taken: seq<Packet>, out: seq<Packet>, after: seq<Packet>) {
    multiset(out) + multiset(after) == multiset(before) + multiset(taken)
  }

  lemma AdmitConserves(t: Table, sn: int, kind: PktType, payload: Slot)
    requires kind != Bar ==> Dist(sn, t.start) < |t.slots|
    ensures var v := Admit(t, sn, kind, payload);
      && Conserved(Packets(t.slots), Taken(Arrive(sn, kind, payload), v.ret), v.out, Packets(v.tbl.slots))
      && (v.ret == 0 || (v.ret == -1 && v.tbl == t && v.out == []))
  {
    if kind == Bar {
      ScanConserved(t);
    } else if t.slots[Dist(sn, t.start)].None? {
      StoreAdds(t.slots, Dist(sn, t.start), payload);
      ScanConserved(t.(slots := t.slots[Dist(sn, t.start) := payload]));
    }
  }

  lemma ScanConserved(t: Table)
    ensures var (t', out) := Scan(t); multiset(out) + multiset(Packets(t'.slots)) == multiset(Packets(t.slots))
  {
    ScanConserves(t);
    var (t', out) := Scan(t);
    assert multiset(out + Packets(t'.slots)) == multiset(out) + multiset(Packets(t'.slots));
  }

  lemma ConservedAfterRoom(before: seq<Packet>, mid: seq<Packet>, taken: seq<Packet>,
                           out1: seq<Packet>, out2: seq<Packet>, after: seq<Packet>)
    requires out1 + mid == before && Conserved(mid, taken, out2, after)
    ensures Conserved(before, taken, out1 + out2, after)
  {
    assert multiset(before) == multiset(out1) + multiset(mid);
    ConservedTwice(before, [], out1, mid, taken, out2, after);
    assert [] + taken == taken;
  }

  lemma ReceiveConserves(t: Table, sn: int, kind: PktType, payload: Slot)
    requires Inv(t) && WireFormat(Arrive(sn, kind, payload))
    ensures var v := Receive(t, sn, kind, payload);
      && Conserved(Packets(t.slots), Taken(Arrive(sn, kind, payload), v.ret), v.out, Packets(v.tbl.slots))
      && (v.ret == 0 || v.ret == -1)
      && (v.ret == -1 ==> SameWindow(t, v.tbl) && v.out == [])
  {
    if !(kind == Amsdu && !t.amsdu) && !Dropped(t, sn) {
      var (t1, out1) := MakeRoom(t, sn, kind);
      var v := Admit(t1, sn, kind, payload);
      MakeRoomConserves(t, sn, kind);
      AdmitConserves(t1, sn, kind, payload);
      ConservedAfterRoom(Packets(t.slots), Packets(t1.slots), Taken(Arrive(sn, kind, payload), v.ret),
                         out1, v.out, Packets(v.tbl.slots));
      if kind != Bar { RefusedOnlyInPlace(t, sn, kind); }
    }
  }

  /** A slot can only be taken when nothing moved before. */
  lemma RefusedOnlyInPlace(t: Table, sn: int, kind: PktType)
    requires Inv(t) && 0 <= sn < SEQ_SPACE && kind != Bar
    ensures var (t1, out) := MakeRoom(t, sn, kind);
      t1.slots[Dist(sn, t1.start)].Some? ==> SameWindow(t, t1) && out == []
  {
    if Shifts(t, sn, kind) { ShiftedWindowHasRoom(t, sn, kind); }
  }

  /** One operation neither loses nor duplicates a packet, and a refusal changes nothing. */
  lemma StepConserves(t: Table, op: Op)
    requires Inv(t) && WireFormat(op)
    ensures var v := Step(t, op);
      && Conserved(Packets(t.slots), Taken(op, v.ret), v.out, Packets(v.tbl.slots))
      && (v.ret != 0 ==> SameWindow(t, v.tbl) && v.out == [])
  {
    match op
    case Arrive(sn, kind, p) => ReceiveConserves(t, sn, kind, p);
    case TimerExpires => FlushReleasesAll(t); PacketsOfEmpty(Flush(t).0.slots);
    case ReAddBa(ssn) => DispatchUntilConserves(t, ssn);
    case AddBaResponse(_) =>
    case HostSleeps =>
  }

  /** Everything a run has taken over, in order of arrival. */
  function AllTaken(t: Table, ops: seq<Op>): seq<Packet>
    requires |t.slots| >= 2
    decreases |ops|
  {
    if ops == [] then [] else Taken(ops[0], Step(t, ops[0]).ret) + AllTaken(Step(t, ops[0]).tbl, ops[1..])
  }

  /** Over a whole run, what was delivered and what is still buffered are together exactly what
      was buffered before and what was taken over. */
  lemma {:induction false} RunConserves(t: Table, ops: seq<Op>)
    requires Inv(t) && forall i :: 0 <= i < |ops| ==> WireFormat(ops[i])
    ensures var (t', out) := Run(t, ops); Conserved(Packets(t.slots), AllTaken(t, ops), out, Packets(t'.slots))
    decreases |ops|
  {
    if ops != [] {
      var v := Step(t, ops[0]);
      StepConserves(t, ops[0]);
      StepKeepsInv(t, ops[0]);
      RunConserves(v.tbl, ops[1..]);
      var (t', out) := Run(v.tbl, ops[1..]);
      ConservedTwice(Packets(t.slots), Taken(ops[0], v.ret), v.out, Packets(v.tbl.slots),
                     AllTaken(v.tbl, ops[1..]), out, Packets(t'.slots));
    }
  }

  lemma ConservedTwice(a: seq<Packet>, taken1: seq<Packet>, out1: seq<Packet>, b: seq<Packet>,
                       taken2: seq<Packet>, out2: seq<Packet>, c: seq<Packet>)
    requires Conserved(a, taken1, out1, b) && Conserved(b, taken2, out2, c)
    ensures Conserved(a, taken1 + taken2, out1 + out2, c)
  {
    assert multiset(taken1 + taken2) == multiset(taken1) + multiset(taken2);
    assert multiset(out1 + out2) == multiset(out1) + multiset(out2);
    forall p: Packet
      ensures multiset(out1 + out2)[p] + multiset(c)[p] == multiset(a)[p] + multiset(taken1 + taken2)[p]
    {
      assert (multiset(out1) + multiset(b))[p] == (multiset(a) + multiset(taken1))[p];
      assert (multiset(out2) + multiset(c))[p] == (multiset(b) + multiset(taken2))[p];
    }
  }

  /** From creation to deletion, every packet that was taken over is delivered exactly once. */
  lemma LifetimeDeliversAll(ssn: int, lastSeq: Option<int>, winSize: nat, ops: seq<Op>)
    requires 0 <= ssn < SEQ_SPACE && (lastSeq.Some? ==> 0 <= lastSeq.value < SEQ_SPACE)
    requires 2 <= winSize <= 1023
    requires forall i :: 0 <= i < |ops| ==> WireFormat(ops[i])
    ensures var t := Create(ssn, lastSeq, winSize); var (t', out) := Run(t, ops);
      multiset(out + Delete(t')) == multiset(AllTaken(t, ops))
  {
    var t := Create(ssn, lastSeq, winSize);
    var (t', out) := Run(t, ops);
    PacketsOfEmpty(t.slots);
    RunKeepsInv(t, ops);
    RunConserves(t, ops);
    DeleteReleasesAll(t', (t'.start + |t'.slots|) % SEQ_SPACE);
    assert multiset(out + Delete(t')) == multiset(out) + multiset(Packets(t'.slots));
  }

  // ----------------------------------------------------------- order of one release

  /** Every packet comes from a slot, and a packet of an aligned stretch lies at its offset. */
  lemma {:induction false} ReleaseInSlotOrder(start: int, s: seq<Slot>, base: nat)
    requires forall i :: 0 <= i < |s| && s[i].Some? ==> Dist(s[i].value.number, start) == base + i
    ensures forall p :: p in Packets(s) ==> base <= Dist(p.number, start) < base + |s|
    ensures Increasing(Packets(s), start)
  {
    if s != [] {
      ReleaseInSlotOrder(start, s[1..], base + 1);
      var rest := Packets(s[1..]);
      if s[0].Some? {
        assert Packets(s) == [s[0].value] + rest;
        forall j | 0 < j < |Packets(s)| ensures Dist(Packets(s)[j].number, start) > base {
          assert Packets(s)[j] == rest[j - 1] && rest[j - 1] in rest;
        }
      } else {
        assert Packets(s) == rest;
      }
    }
  }

  predicate Increasing(out: seq<Packet>, start: int) {
    forall i, j :: 0 <= i < j < |out| ==> Dist(out[i].number, start) < Dist(out[j].number, start)
  }

  /** Whatever one move of the window releases leaves in increasing distance from the old start,
      also when the move releases more than it has to. */
  lemma DispatchUntilInOrder(t: Table, newStart: int)
    requires Inv(t)
    ensures Increasing(DispatchUntil(t, newStart).1, t.start)
  {
    ReleaseInSlotOrder(t.start, t.slots[..SendCount(t.start, newStart, |t.slots|)], 0);
  }
}
