/** Exactly when the driver's table does what the standard's buffer does, step by step and over whole runs. */
module RxReorderRefinement {
  import opened Wrappers
  import opened RxReorder
  import opened RxReorderReference
  import Laws = RxReorderLaws

  // ------------------------------------------------- exactly when a step agrees

  /** A table that lacks a frame the buffer still held before passing up does not match it after. */
  lemma LeftBehind(s: seq<Slot>, m: map<int, Packet>, start: int, i: nat, t': Table, b': Buffer)
    requires Fits(s, m, start) && |s| == |t'.slots| && b' == PassUp(Buffer(start, m)).0
    requires t'.start % SEQ_SPACE == start % SEQ_SPACE
    requires i < |s| && s[i].Some? && t'.slots[i].None?
    ensures !Sim(t', b')
  {
    ScanIsPassUp(s, m, start);
    assert s[i] == Get(m, start + i) && From(m, start) == m;
    if Sim(t', b') {
      SmallMultiple(start, RunLength(s));
    }
  }

  lemma SmallMultiple(start: int, n: nat)
    requires (start + n) % SEQ_SPACE == start % SEQ_SPACE && n <= 1023
    ensures n == 0
  {}

  /** The slots the standard's buffer corresponds to after moving by d. */
  lemma BufferAfterMove(t: Table, b: Buffer, d: nat) returns (i: nat)
    requires Sim(t, b) && 1 <= d < |t.slots| && !AllEmpty(t.slots[d..])
    ensures Fits(Rotate(t.slots, d), From(b.stored, b.start + d), b.start + d)
    ensures i < |t.slots| - d && Rotate(t.slots, d)[i].Some?
  {
    RotateFits(t.slots, b.stored, b.start, d);
    i :| 0 <= i < |t.slots| - d && t.slots[d..][i].Some?;
  }

  lemma AcceptedIsAhead(t: Table, b: Buffer, number: int)
    requires Sim(t, b) && -HALF_SPACE <= number - b.start < HALF_SPACE && !Dropped(t, number % SEQ_SPACE)
    ensures Dist(number % SEQ_SPACE, t.start) == number - b.start
  {
    DistOnLine(if number < b.start then number + SEQ_SPACE else number, b.start, number % SEQ_SPACE, t.start);
  }

  /** What an early release leaves: every packet is out, the table is empty except perhaps for its
      last slot, and its window starts `d` further, below the window's old end. */
  predicate Emptied(t: Table, last: Slot, d: int, start: int, v: Verdict) {
    && 1 <= d < |t.slots| && !AllEmpty(t.slots[d..])
    && v.tbl.slots == Empties(|t.slots| - 1) + [last]
    && v.tbl.start == (start + d) % SEQ_SPACE
    && !v.tbl.initShift && !v.tbl.forceNoDrop
    && v.out == Packets(t.slots)
  }

  lemma EarlyFrameFacts(t: Table, b: Buffer, kind: PktType, p: Packet, sn: int, newStart: int)
    requires Sim(t, b) && InReach(t.amsdu, b.start, Frame(kind, p)) && ReleasesEarly(t, Frame(kind, p))
    requires sn == p.number % SEQ_SPACE && newStart == ShiftStart(t, sn, kind)
    ensures |t.slots| <= Dist(sn, t.start) < HALF_SPACE
    ensures var d := p.number - |t.slots| + 1 - b.start;
      1 <= d < |t.slots| && newStart == (b.start + d) % SEQ_SPACE <= t.start && !AllEmpty(t.slots[d..])
  {
    AcceptedIsAhead(t, b, p.number);
    BeyondWindow(sn, p.number, t.start, b.start, |t.slots|);
  }

  /** An early release by a frame. */
  lemma FrameEmpties(t: Table, b: Buffer, kind: PktType, p: Packet, sn: int)
    requires Sim(t, b) && InReach(t.amsdu, b.start, Frame(kind, p)) && ReleasesEarly(t, Frame(kind, p))
    requires sn == p.number % SEQ_SPACE
    ensures Emptied(t, Some(p), p.number - |t.slots| + 1 - b.start, b.start, Receive(t, sn, kind, Some(p)))
  {
    EarlyFrameFacts(t, b, kind, p, sn, ShiftStart(t, sn, kind));
    FrameEmptiesAt(t, kind, p, sn, p.number - |t.slots| + 1 - b.start, b.start, ShiftStart(t, sn, kind));
  }

  lemma FrameEmptiesAt(t: Table, kind: PktType, p: Packet, sn: int, d: int, start: int, newStart: int)
    requires newStart == ShiftStart(t, sn, kind) <= t.start
    requires 2 <= |t.slots| <= 1023 && !t.initShift && !t.forceNoDrop && kind != Bar && (kind == Amsdu ==> t.amsdu)
    requires |t.slots| <= Dist(sn, t.start) < HALF_SPACE
    requires 1 <= d < |t.slots| && !AllEmpty(t.slots[d..]) && newStart == (start + d) % SEQ_SPACE
    ensures Emptied(t, Some(p), d, start, Receive(t, sn, kind, Some(p)))
  {
    ReceiveEarly(t, sn, kind, p, newStart);
    LastOnlyEmptied(t, p, d, start, newStart);
  }

  lemma LastOnlyEmptied(t: Table, p: Packet, d: int, start: int, newStart: int)
    requires 1 <= d < |t.slots| && !AllEmpty(t.slots[d..]) && newStart == (start + d) % SEQ_SPACE
    requires !t.initShift && !t.forceNoDrop
    ensures Emptied(t, Some(p), d, start, LastOnly(t, p, newStart))
  {}

  lemma ReceiveEarly(t: Table, sn: int, kind: PktType, p: Packet, newStart: int)
    requires newStart == ShiftStart(t, sn, kind) <= t.start
    requires 2 <= |t.slots| <= 1023 && !t.initShift && !t.forceNoDrop && kind != Bar && (kind == Amsdu ==> t.amsdu)
    requires |t.slots| <= Dist(sn, t.start) < HALF_SPACE
    ensures Receive(t, sn, kind, Some(p)) == LastOnly(t, p, newStart)
  {
    ReceiveBeyond(t, sn, kind, p, newStart);
    EarlyScan(t, p, newStart);
  }

  function LastOnly(t: Table, p: Packet, newStart: int): Verdict
    requires t.slots != []
  {
    Verdict(t.(start := newStart, slots := Empties(|t.slots| - 1) + [Some(p)], timerSet := true), 0, Packets(t.slots))
  }

  lemma EarlyScan(t: Table, p: Packet, newStart: int)
    requires 0 <= newStart <= t.start && newStart < SEQ_SPACE && |t.slots| >= 2
    ensures var w, m := |t.slots|, DispatchUntil(t, newStart);
      var r := Scan(m.0.(slots := m.0.slots[w - 1 := Some(p)]));
      m.0.slots[w - 1].None? && Verdict(r.0.(timerSet := true), 0, m.1 + r.1) == LastOnly(t, p, newStart)
  {
    ReleaseAll(t, newStart);
    var s := Empties(|t.slots|)[|t.slots| - 1 := Some(p)];
    assert s == Empties(|t.slots| - 1) + [Some(p)];
    ScanOfHole(t.(start := newStart, slots := s));
  }

  /** A new start that is numerically not larger empties the table. */
  lemma ReleaseAll(t: Table, newStart: int)
    requires newStart <= t.start
    ensures DispatchUntil(t, newStart) == (t.(start := newStart, slots := Empties(|t.slots|)), Packets(t.slots))
  {
    assert Rotate(t.slots, |t.slots|) == Empties(|t.slots|);
    assert t.slots[..|t.slots|] == t.slots;
  }

  lemma ScanOfHole(t: Table)
    requires t.slots != [] && t.slots[0].None?
    ensures Scan(t) == (t.(start := t.start % SEQ_SPACE), [])
  {
    assert RunLength(t.slots) == 0 && Rotate(t.slots, 0) == t.slots;
  }

  lemma EarlyFrame(t: Table, b: Buffer, kind: PktType, p: Packet)
    requires Sim(t, b) && InReach(t.amsdu, b.start, Frame(kind, p)) && ReleasesEarly(t, Frame(kind, p))
    ensures !Sim(Receive(t, p.number % SEQ_SPACE, kind, Some(p)).tbl, OnFrame(b, |t.slots|, p).0)
  {
    FrameEmpties(t, b, kind, p, p.number % SEQ_SPACE);
    EarlyFrameAt(t, b, p, p.number - |t.slots| + 1 - b.start, Receive(t, p.number % SEQ_SPACE, kind, Some(p)));
  }

  lemma EarlyFrameAt(t: Table, b: Buffer, p: Packet, d: int, v: Verdict)
    requires Sim(t, b) && Emptied(t, Some(p), d, b.start, v) && p.number == b.start + d + |t.slots| - 1
    ensures !Sim(v.tbl, OnFrame(b, |t.slots|, p).0)
  {
    var i := BufferAfterMove(t, b, d);
    OnFrameBeyond(b, |t.slots|, p);
    StoredLeftBehind(Rotate(t.slots, d), From(b.stored, b.start + d), b.start + d, p, i, v.tbl,
                     OnFrame(b, |t.slots|, p).0);
  }

  lemma StoredLeftBehind(s: seq<Slot>, m: map<int, Packet>, start: int, p: Packet, i: nat, t': Table, b': Buffer)
    requires Fits(s, m, start) && s != [] && p.number == start + |s| - 1 && t'.slots == Empties(|s| - 1) + [Some(p)]
    requires t'.start % SEQ_SPACE == start % SEQ_SPACE && i < |s| - 1 && s[i].Some?
    requires b' == PassUp(Buffer(start, m[p.number := p])).0
    ensures !Sim(t', b')
  {
    StoreFits(s, m, start, p);
    assert s[|s| - 1 := Some(p)][i] == s[i];
    LeftBehind(s[|s| - 1 := Some(p)], m[p.number := p], start, i, t', b');
  }

  lemma EarlyBarFacts(t: Table, b: Buffer, number: int, sn: int)
    requires Sim(t, b) && InReach(t.amsdu, b.start, BlockAckReq(number)) && ReleasesEarly(t, BlockAckReq(number))
    requires sn == number % SEQ_SPACE
    ensures 0 < Dist(sn, t.start) < HALF_SPACE && sn <= t.start
    ensures var d := number - b.start; 1 <= d < |t.slots| && !AllEmpty(t.slots[d..])
  {
    AcceptedIsAhead(t, b, number);
    if number == b.start {
      Laws.BarMovesStart(t, sn);
    } else {
      EarlyBarCondition(t, b, number, sn);
    }
  }

  /** An early release by a BAR. */
  lemma BarEmpties(t: Table, b: Buffer, number: int)
    requires Sim(t, b) && InReach(t.amsdu, b.start, BlockAckReq(number)) && ReleasesEarly(t, BlockAckReq(number))
    ensures Emptied(t, None, number - b.start, b.start, Receive(t, number % SEQ_SPACE, Bar, None))
  {
    var sn := number % SEQ_SPACE;
    EarlyBarFacts(t, b, number, sn);
    BarEarly(t, sn);
    assert Empties(|t.slots|) == Empties(|t.slots| - 1) + [None];
  }

  lemma BarEarly(t: Table, sn: int)
    requires 2 <= |t.slots| <= 1023 && !t.initShift && !t.forceNoDrop && 0 <= sn <= t.start && sn < SEQ_SPACE
    requires 0 < Dist(sn, t.start) < HALF_SPACE
    ensures Receive(t, sn, Bar, None) ==
      Verdict(t.(start := sn, slots := Empties(|t.slots|), timerSet := true), 0, Packets(t.slots))
  {
    ReceiveBar(t, sn);
    ReleaseAll(t, sn);
    ScanOfHole(t.(start := sn, slots := Empties(|t.slots|)));
  }

  lemma EarlyBar(t: Table, b: Buffer, number: int)
    requires Sim(t, b) && InReach(t.amsdu, b.start, BlockAckReq(number)) && ReleasesEarly(t, BlockAckReq(number))
    ensures !Sim(Receive(t, number % SEQ_SPACE, Bar, None).tbl, OnBar(b, number).0)
  {
    BarEmpties(t, b, number);
    EarlyBarAt(t, b, number, Receive(t, number % SEQ_SPACE, Bar, None));
  }

  lemma EarlyBarAt(t: Table, b: Buffer, number: int, v: Verdict)
    requires Sim(t, b) && Emptied(t, None, number - b.start, b.start, v)
    ensures !Sim(v.tbl, OnBar(b, number).0)
  {
    var i := BufferAfterMove(t, b, number - b.start);
    assert OnBar(b, number).0 == PassUp(MoveTo(b, number).0).0;
    LeftBehind(Rotate(t.slots, number - b.start), From(b.stored, number), number, i, v.tbl, OnBar(b, number).0);
  }

  /** One step of the table is one step of the standard's buffer, with the same frames passed up
      in the same order, if and only if it is not an early release. */
  lemma StepRefinesIff(t: Table, b: Buffer, ev: Event)
    requires Sim(t, b) && InReach(t.amsdu, b.start, ev)
    ensures var v := Step(t, ToOp(ev));
      var (b', out) := On(b, |t.slots|, ev);
      (Sim(v.tbl, b') && v.out == out) <==> !ReleasesEarly(t, ev)
  {
    if ReleasesEarly(t, ev) {
      match ev
      case Frame(kind, p) => EarlyFrame(t, b, kind, p);
      case BlockAckReq(n) => EarlyBar(t, b, n);
    } else {
      StepSim(t, b, ev);
    }
  }

  // ------------------------------------------------------------------ whole runs

  /** Every arrival lies in reach of the window start that the standard prescribes. */
  predicate RunInReach(amsdu: bool, winSize: nat, b: Buffer, evs: seq<Event>)
    decreases |evs|
  {
    evs != [] ==> InReach(amsdu, b.start, evs[0]) && RunInReach(amsdu, winSize, On(b, winSize, evs[0]).0, evs[1..])
  }

  predicate NeverReleasesEarly(t: Table, evs: seq<Event>)
    requires |t.slots| >= 2
    decreases |evs|
  {
    evs != [] ==> !ReleasesEarly(t, evs[0]) && NeverReleasesEarly(Step(t, ToOp(evs[0])).tbl, evs[1..])
  }

  /** After every event both sides have passed up the same frames and hold the same ones. */
  ghost predicate Lockstep(t: Table, b: Buffer, evs: seq<Event>)
    requires |t.slots| >= 2
    decreases |evs|
  {
    Sim(t, b) && (evs != [] ==>
      var v := Step(t, ToOp(evs[0]));
      var (b', out) := On(b, |t.slots|, evs[0]);
      v.out == out && Lockstep(v.tbl, b', evs[1..]))
  }

  lemma AmsduStays(t: Table, ev: Event)
    requires |t.slots| >= 2
    ensures Step(t, ToOp(ev)).tbl.amsdu == t.amsdu
  {}

  /** A run keeps step with the standard exactly when no window shift in it releases early. */
  lemma {:induction false} RunRefinesIff(t: Table, b: Buffer, evs: seq<Event>)
    requires Sim(t, b) && RunInReach(t.amsdu, |t.slots|, b, evs)
    ensures Lockstep(t, b, evs) <==> NeverReleasesEarly(t, evs)
    decreases |evs|
  {
    if evs != [] {
      StepRefinesIff(t, b, evs[0]);
      AmsduStays(t, evs[0]);
      var v := Step(t, ToOp(evs[0]));
      var (b', out) := On(b, |t.slots|, evs[0]);
      if Sim(v.tbl, b') && v.out == out { RunRefinesIff(v.tbl, b', evs[1..]); }
    }
  }

  /** A run without early release delivers what the standard's buffer delivers, in its order. */
  lemma {:induction false} RunRefines(t: Table, b: Buffer, evs: seq<Event>)
    requires Sim(t, b) && RunInReach(t.amsdu, |t.slots|, b, evs) && NeverReleasesEarly(t, evs)
    ensures Run(t, ToOps(evs)).1 == RunBuffer(b, |t.slots|, evs).1
    ensures Sim(Run(t, ToOps(evs)).0, RunBuffer(b, |t.slots|, evs).0)
    decreases |evs|
  {
    if evs != [] {
      StepSim(t, b, evs[0]);
      AmsduStays(t, evs[0]);
      assert ToOps(evs)[1..] == ToOps(evs[1..]);
      RunRefines(Step(t, ToOp(evs[0])).tbl, On(b, |t.slots|, evs[0]).0, evs[1..]);
    }
  }
}
