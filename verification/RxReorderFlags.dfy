/** What the two one-shot flags, the A-MSDU agreement and the timer mean, said of a call as a whole:
    in distances, packets and slots, without the steps the specification takes. */
module RxReorderFlags {
  import opened Wrappers
  import opened RxReorder
  import opened RxReorderLaws

  /** The frame goes through the table. */
  predicate Handled(t: Table, kind: PktType) { kind == Amsdu ==> t.amsdu }

  /** Nothing is buffered but this payload, in the last slot. */
  predicate OnlyLast(slots: seq<Slot>, payload: Slot) {
    slots != [] && AllEmpty(slots[..|slots| - 1]) && slots[|slots| - 1] == payload
  }

  /** The sender counts again from below the start that creation had moved ahead. */
  predicate Restarted(t: Table, sn: int) { t.initShift && !t.forceNoDrop && t.initWin <= sn < t.start }

  /** The host has gone to sleep and the frame lies in the older half of the circle. */
  predicate Rescued(t: Table, sn: int) { t.forceNoDrop && Dist(sn, t.start) >= HALF_SPACE }

  function Unflagged(t: Table): Table { t.(initShift := false, forceNoDrop := false) }

  // ------------------------------------------------------------ force-no-drop

  lemma FarMove(start: int, sn: int, w: int)
    requires 0 <= start <= SEQ_SPACE && 0 <= sn < SEQ_SPACE && 2 <= w <= 1023 && Dist(sn, start) >= HALF_SPACE
    ensures SendCount(start, (sn - w + 1) % SEQ_SPACE, w) == w
  {}

  /** A move that releases everything leaves nothing behind. */
  lemma ReleasesAll(t: Table, newStart: int)
    requires SendCount(t.start, newStart, |t.slots|) == |t.slots|
    ensures DispatchUntil(t, newStart) == (t.(start := newStart, slots := Empties(|t.slots|)), Packets(t.slots))
  {
    assert t.slots[..|t.slots|] == t.slots;
    assert Rotate(t.slots, |t.slots|) == Empties(|t.slots|);
  }

  /** A frame in the last slot of an otherwise empty window waits there. */
  lemma AdmitLast(t: Table, sn: int, kind: PktType, payload: Slot)
    requires |t.slots| >= 2 && AllEmpty(t.slots) && kind != Bar && Dist(sn, t.start) == |t.slots| - 1
    requires 0 <= t.start < SEQ_SPACE
    ensures var v := Admit(t, sn, kind, payload);
      v.ret == 0 && v.out == [] && v.tbl.start == t.start && OnlyLast(v.tbl.slots, payload)
  {
    var stored := t.(slots := t.slots[|t.slots| - 1 := payload]);
    assert stored.slots[0].None?;
    assert RunLength(stored.slots) == 0;
    assert Rotate(stored.slots, 0) == stored.slots;
  }

  /** After the host has gone to sleep, a frame from the older half of the circle is not refused: all that
      is buffered is released, and the window moves so that the frame is its last. */
  lemma RescuedDataRule(t: Table, sn: int, kind: PktType, payload: Slot)
    requires Inv(t) && WireFormat(Arrive(sn, kind, payload)) && kind != Bar && Handled(t, kind) && Rescued(t, sn)
    ensures var v := Receive(t, sn, kind, payload);
      && v.ret == 0 && v.out == Packets(t.slots)
      && v.tbl.start == (sn - |t.slots| + 1) % SEQ_SPACE && OnlyLast(v.tbl.slots, payload)
  {
    var w, start := |t.slots|, (sn - |t.slots| + 1) % SEQ_SPACE;
    FarMove(t.start, sn, w);
    RoomFor(t, sn, kind, Unflagged(t), sn);
    ReleasesAll(Unflagged(t), start);
    DistOnLine(sn, sn - w + 1, sn, start);
    AdmitLast(MakeRoom(t, sn, kind).0, sn, kind, payload);
  }

  /** A BAR that passes the test for old frames, with the window it makes room in */
  lemma BarFrom(t: Table, sn: int, payload: Slot, t1: Table, out: seq<Packet>)
    requires |t.slots| >= 2 && !Dropped(t, sn) && MakeRoom(t, sn, Bar) == (t1, out)
    ensures var (t2, out2) := Scan(t1);
      Receive(t, sn, Bar, payload) == Verdict(t2.(timerSet := true), 0, out + out2)
  {}

  lemma FarBarMoves(t: Table, sn: int)
    requires Inv(t) && 0 <= sn < SEQ_SPACE && Rescued(t, sn) && Dist(sn, t.start) <= SEQ_SPACE - |t.slots|
    ensures MakeRoom(t, sn, Bar) == (Unflagged(t).(start := sn, slots := Empties(|t.slots|)), Packets(t.slots))
  {
    FarBar(t.start, sn, |t.slots|);
    RoomFor(t, sn, Bar, Unflagged(t), LastCovered(t, sn, Bar));
    ReleasesAll(Unflagged(t), sn);
  }

  lemma NearBarStays(t: Table, sn: int)
    requires Inv(t) && 0 <= sn < SEQ_SPACE && Rescued(t, sn) && Dist(sn, t.start) > SEQ_SPACE - |t.slots|
    ensures MakeRoom(t, sn, Bar) == (Unflagged(t), [])
  {
    NearBar(t.start, sn, |t.slots|);
    RoomFor(t, sn, Bar, Unflagged(t), LastCovered(t, sn, Bar));
  }

  /** A BAR is not refused either. It moves the window to its own number, unless the window would still
      hold its old start: then the window stays. */
  lemma RescuedBarRule(t: Table, sn: int, payload: Slot)
    requires Inv(t) && WireFormat(Arrive(sn, Bar, payload)) && Rescued(t, sn)
    ensures var d, v := Dist(sn, t.start), Receive(t, sn, Bar, payload);
      && v.ret == 0
      && (d <= SEQ_SPACE - |t.slots| ==> v.out == Packets(t.slots) && v.tbl.start == sn && AllEmpty(v.tbl.slots))
      && (d > SEQ_SPACE - |t.slots| ==> (v.tbl.(timerSet := t.timerSet), v.out) == Scan(Unflagged(t)))
  {
    var (t1, out) := MakeRoom(t, sn, Bar);
    BarFrom(t, sn, payload, t1, out);
    if Dist(sn, t.start) <= SEQ_SPACE - |t.slots| {
      FarBarMoves(t, sn);
      ScanOfEmpty(t1);
    } else {
      NearBarStays(t, sn);
      assert [] + Scan(t1).1 == Scan(t1).1;
    }
  }

  lemma FarBar(start: int, sn: int, w: int)
    requires 0 <= start <= SEQ_SPACE && 0 <= sn < SEQ_SPACE && 2 <= w <= 1023
    requires HALF_SPACE <= Dist(sn, start) <= SEQ_SPACE - w
    ensures Dist((sn + w - 1) % SEQ_SPACE, start) == Dist(sn, start) + w - 1
    ensures ((sn + w - 1) % SEQ_SPACE - w + 1) % SEQ_SPACE == sn
    ensures SendCount(start, sn, w) == w
  {}

  lemma NearBar(start: int, sn: int, w: int)
    requires 0 <= start <= SEQ_SPACE && 0 <= sn < SEQ_SPACE && 2 <= w <= 1023 && Dist(sn, start) > SEQ_SPACE - w
    ensures Dist((sn + w - 1) % SEQ_SPACE, start) < w
  {}

  lemma ScanOfEmpty(t: Table)
    requires AllEmpty(t.slots) && 0 <= t.start < SEQ_SPACE
    ensures Scan(t) == (t, [])
  {
    assert RunLength(t.slots) == 0 && Rotate(t.slots, 0) == t.slots && t.slots[..0] == [];
  }

  /** With the flag set nothing is too old: an arrival is refused if and only if it is a frame in the
      window whose slot is taken. A BAR never is. */
  lemma ForcedRefusedIff(t: Table, sn: int, kind: PktType, payload: Slot)
    requires Inv(t) && WireFormat(Arrive(sn, kind, payload)) && Handled(t, kind) && t.forceNoDrop
    ensures var d := Dist(sn, t.start);
      Receive(t, sn, kind, payload).ret == if kind != Bar && d < |t.slots| && t.slots[d].Some? then -1 else 0
  {
    if Rescued(t, sn) {
      if kind == Bar { RescuedBarRule(t, sn, payload); } else { RescuedDataRule(t, sn, kind, payload); }
    } else {
      FlagsMatterOnlyThere(t, sn, kind, payload);
      if kind == Bar { BarWindowRule(Unflagged(t), sn, payload); }
      else { DataWindowRule(Unflagged(t), sn, kind, payload); }
    }
  }

  /** So it is with the first arrival after the host has gone to sleep, whatever the flags were. */
  lemma NotDroppedAfterSleep(t: Table, sn: int, kind: PktType, payload: Slot)
    requires Inv(t) && WireFormat(Arrive(sn, kind, payload)) && Handled(t, kind)
    ensures var d, v := Dist(sn, t.start), Step(Step(t, HostSleeps).tbl, Arrive(sn, kind, payload));
      v.ret == if kind != Bar && d < |t.slots| && t.slots[d].Some? then -1 else 0
  {
    StepKeepsInv(t, HostSleeps);
    ForcedRefusedIff(Step(t, HostSleeps).tbl, sn, kind, payload);
  }

  // --------------------------------------------------------- init-window shift

  lemma ScanOfOne(t: Table, p: Packet)
    requires |t.slots| >= 2 && t.slots[0] == Some(p) && AllEmpty(t.slots[1..])
    ensures Scan(t).1 == [p] && AllEmpty(Scan(t).0.slots) && Scan(t).0.start == (t.start + 1) % SEQ_SPACE
  {
    var rest := t.slots[1..];
    assert rest[0].None? && RunLength(t.slots) == 1;
    assert t.slots[..1] == [Some(p)] && [Some(p)][1..] == [];
    assert Packets([Some(p)]) == [p];
    forall i | 0 <= i < |t.slots| ensures Rotate(t.slots, 1)[i].None? {
      if i + 1 < |t.slots| { assert Rotate(t.slots, 1)[i] == rest[i]; }
    }
  }

  lemma RestartRoom(t: Table, sn: int, kind: PktType)
    requires Inv(t) && 0 <= sn < SEQ_SPACE && Restarted(t, sn)
    ensures !Dropped(t, sn) && MakeRoom(t, sn, kind) == (Unflagged(t).(start := sn), [])
  {
    assert StartFor(t, sn) == sn;
    if kind == Bar { BarDist(sn, sn, |t.slots|); }
    RoomFor(t, sn, kind, Unflagged(t).(start := sn), LastCovered(t, sn, kind));
  }

  lemma AdmitFirst(t: Table, kind: PktType, p: Packet)
    requires |t.slots| >= 2 && AllEmpty(t.slots) && kind != Bar && 0 <= t.start < SEQ_SPACE
    ensures var v := Admit(t, t.start, kind, Some(p));
      v.ret == 0 && v.out == [p] && AllEmpty(v.tbl.slots) && v.tbl.start == (t.start + 1) % SEQ_SPACE
  {
    ScanOfOne(t.(slots := t.slots[0 := Some(p)]), p);
  }

  /** A sender that counts again from below the moved start: its first frame becomes the window start
      and is delivered at once, a BAR makes its number the start. */
  lemma RestartRule(t: Table, sn: int, kind: PktType, payload: Slot)
    requires Inv(t) && WireFormat(Arrive(sn, kind, payload)) && Handled(t, kind) && Restarted(t, sn)
    requires kind != Bar ==> payload.Some?
    ensures var v := Receive(t, sn, kind, payload);
      && v.ret == 0 && AllEmpty(v.tbl.slots)
      && (kind != Bar ==> v.out == Opt(payload) && v.tbl.start == (sn + 1) % SEQ_SPACE)
      && (kind == Bar ==> v.out == [] && v.tbl.start == sn)
  {
    RestartRoom(t, sn, kind);
    var t0 := Unflagged(t).(start := sn);
    if kind == Bar { ScanOfEmpty(t0); } else { AdmitFirst(t0, kind, payload.value); }
  }

  /** In no other case does a flag make a difference, except that it is used up. */
  lemma FlagsMatterOnlyThere(t: Table, sn: int, kind: PktType, payload: Slot)
    requires Inv(t) && WireFormat(Arrive(sn, kind, payload)) && Handled(t, kind)
    requires !Restarted(t, sn) && !Rescued(t, sn)
    ensures Receive(t, sn, kind, payload) == Receive(Unflagged(t), sn, kind, payload)
  {
    assert StartFor(t, sn) == t.start && StartFor(Unflagged(t), sn) == t.start;
    assert Dropped(t, sn) == Dropped(Unflagged(t), sn);
    assert MakeRoom(t, sn, kind) == MakeRoom(Unflagged(t), sn, kind);
  }

  lemma FlagsAreOneShot(t: Table, sn: int, kind: PktType, payload: Slot)
    requires Inv(t) && WireFormat(Arrive(sn, kind, payload)) && Handled(t, kind)
    ensures !Receive(t, sn, kind, payload).tbl.initShift && !Receive(t, sn, kind, payload).tbl.forceNoDrop
  {}

  // ---------------------------------------------------------------------- A-MSDU

  lemma AmsduAsData(t: Table, sn: int, payload: Slot)
    requires |t.slots| >= 2 && t.amsdu
    ensures Receive(t, sn, Amsdu, payload) == Receive(t, sn, Data, payload)
  {
    assert MakeRoom(t, sn, Amsdu) == MakeRoom(t, sn, Data);
    var t1 := MakeRoom(t, sn, Data).0;
    assert Admit(t1, sn, Amsdu, payload) == Admit(t1, sn, Data, payload);
  }

  /** An A-MSDU goes the way of any data frame if the response to the ADDBA allowed it, and otherwise
      past the table: it is delivered at once, in front of whatever waits. */
  lemma AmsduRule(t: Table, agreed: bool, sn: int, payload: Slot)
    requires Inv(t) && WireFormat(Arrive(sn, Amsdu, payload))
    ensures var t' := Step(t, AddBaResponse(agreed)).tbl; var v := Step(t', Arrive(sn, Amsdu, payload));
      if agreed then v == Step(t', Arrive(sn, Data, payload)) else v == Verdict(t', 0, Opt(payload))
  {
    var t' := t.(amsdu := agreed);
    if agreed { AmsduAsData(t', sn, payload); }
  }

  // ------------------------------------------------------------------------- timer

  /** Nothing is buffered without a timer that will release it. */
  predicate Watched(t: Table) { AllEmpty(t.slots) || t.timerSet }

  lemma MovedEmpty(t: Table, newStart: int)
    requires AllEmpty(t.slots)
    ensures AllEmpty(DispatchUntil(t, newStart).0.slots)
  {}

  lemma StepKeepsWatched(t: Table, op: Op)
    requires Inv(t) && WireFormat(op) && Watched(t)
    ensures Watched(Step(t, op).tbl)
  {
    match op
    case TimerExpires => FlushReleasesAll(t);
    case ReAddBa(ssn) => if AllEmpty(t.slots) { MovedEmpty(t, ssn); }
    case _ =>
  }

  lemma {:induction false} RunKeepsWatched(t: Table, ops: seq<Op>)
    requires Inv(t) && Watched(t) && forall i :: 0 <= i < |ops| ==> WireFormat(ops[i])
    ensures Watched(Run(t, ops).0)
    decreases |ops|
  {
    if ops != [] {
      StepKeepsInv(t, ops[0]);
      StepKeepsWatched(t, ops[0]);
      RunKeepsWatched(Step(t, ops[0]).tbl, ops[1..]);
    }
  }

  /** No packet is stranded: over the life of a table, whenever something is buffered the timer is set,
      and when it expires it delivers all of it. */
  lemma NothingStranded(ssn: int, lastSeq: Option<int>, winSize: nat, ops: seq<Op>)
    requires 0 <= ssn < SEQ_SPACE && (lastSeq.Some? ==> 0 <= lastSeq.value < SEQ_SPACE)
    requires 2 <= winSize <= 1023
    requires forall i :: 0 <= i < |ops| ==> WireFormat(ops[i])
    ensures var t := Run(Create(ssn, lastSeq, winSize), ops).0;
      && (t.timerSet || AllEmpty(t.slots))
      && Step(t, TimerExpires).out == Packets(t.slots) && AllEmpty(Step(t, TimerExpires).tbl.slots)
  {
    var t0 := Create(ssn, lastSeq, winSize);
    RunKeepsWatched(t0, ops);
    RunKeepsInv(t0, ops);
    FlushReleasesAll(Run(t0, ops).0);
  }

  // ---------------------------------------------------------------------- creation

  /** A new window starts at the agreed number, or behind everything that was received before it, if
      that is later; and only then does it wait for a sender that counts again. */
  lemma CreatedBehindLast(ssn: int, lastSeq: Option<int>, winSize: nat)
    ensures var t := Create(ssn, lastSeq, winSize);
      && t.start >= ssn && (lastSeq.Some? ==> t.start > lastSeq.value)
      && (t.start == ssn || (lastSeq.Some? && t.start == lastSeq.value + 1))
      && (t.initShift <==> t.start > ssn) && t.initWin == ssn && !t.forceNoDrop && AllEmpty(t.slots)
  {}
}
