/**
 The 802.11n receive reorder table as a value: what each entry point does to the window
 and what it hands to the network stack. Everything is stated in arithmetic modulo 4096;
 RxReorderTable proves that the C comparisons in the driver compute the same.
 */
module RxReorder {
  import opened Wrappers

  const SEQ_SPACE := 4096   // MAX_TID_VALUE
  const HALF_SPACE := 2048  // TWOPOW11

  /** A received frame. `number` is the sender's own running counter, of which only the low
      12 bits travel in the frame; `body` stands for the rest of the frame. */
  datatype Packet = Packet(number: int, body: nat)

  datatype PktType = Data | Amsdu | Bar

  type Slot = Option<Packet>

  /** `slots[i]` is `rx_reorder_ptr[i]`; `win_size` is `|slots|`. */
  datatype Table = Table(start: int, initWin: int, slots: seq<Slot>,
                         initShift: bool, forceNoDrop: bool, amsdu: bool, timerSet: bool)

  /** What one call returns: the table after it, the C return value, and the packets passed to
      `mwifiex_11n_dispatch_pkt`, in order. */
  datatype Verdict = Verdict(tbl: Table, ret: int, out: seq<Packet>)

  /** How far `seq` lies ahead of `start` on the circle of sequence numbers. */
  function Dist(sn: int, start: int): (d: int)
    ensures 0 <= d < SEQ_SPACE
  {
    (sn - start) % SEQ_SPACE
  }

  /** Circular distance is distance on the line, for points less than one circle apart. */
  lemma DistOnLine(x: int, y: int, sn: int, start: int)
    requires sn % SEQ_SPACE == x % SEQ_SPACE && start % SEQ_SPACE == y % SEQ_SPACE && 0 <= x - y < SEQ_SPACE
    ensures Dist(sn, start) == x - y
  {}

  lemma SameWrap(x: int, y: int, n: int)
    requires x % SEQ_SPACE == y % SEQ_SPACE
    ensures (x + n) % SEQ_SPACE == (y + n) % SEQ_SPACE
  {}

  function Empties(n: nat): (s: seq<Slot>)
    ensures |s| == n && forall i :: 0 <= i < n ==> s[i] == None
  {
    seq(n, i => None)
  }

  predicate AllEmpty(s: seq<Slot>) {
    forall i :: 0 <= i < |s| ==> s[i].None?
  }

  /** The packets of a stretch of slots, in slot order. */
  function Packets(s: seq<Slot>): seq<Packet> {
    if s == [] then [] else (if s[0].Some? then [s[0].value] else []) + Packets(s[1..])
  }

  /** The slots after the window moved by `k`: the first `k` are gone, `k` free ones follow. */
  function Rotate(s: seq<Slot>, k: nat): (r: seq<Slot>)
    requires k <= |s|
    ensures |r| == |s|
  {
    s[k..] + Empties(k)
  }

  /** How many slots a move of the window start releases. A new start that is numerically not
      larger releases all of them, also when it lies only a little ahead modulo 4096. */
  function SendCount(start: int, newStart: int, winSize: nat): (k: nat)
    ensures k <= winSize
  {
    if newStart > start && newStart - start < winSize then newStart - start else winSize
  }

  function DispatchUntil(t: Table, newStart: int): (r: (Table, seq<Packet>))
    ensures |r.0.slots| == |t.slots|
  {
    var k := SendCount(t.start, newStart, |t.slots|);
    (t.(start := newStart, slots := Rotate(t.slots, k)), Packets(t.slots[..k]))
  }

  /** The number of filled slots before the first hole. */
  function RunLength(s: seq<Slot>): (n: nat)
    ensures n <= |s|
    ensures forall i :: 0 <= i < n ==> s[i].Some?
    ensures n < |s| ==> s[n].None?
  {
    if s == [] || s[0].None? then 0 else 1 + RunLength(s[1..])
  }

  function Scan(t: Table): (r: (Table, seq<Packet>))
    ensures |r.0.slots| == |t.slots|
  {
    var i := RunLength(t.slots);
    (t.(start := (t.start + i) % SEQ_SPACE, slots := Rotate(t.slots, i)), Packets(t.slots[..i]))
  }

  /** One past the last filled slot; 0 when every slot is empty. */
  function FilledEnd(s: seq<Slot>): (n: nat)
    ensures n <= |s|
    ensures n > 0 ==> s[n - 1].Some?
    ensures forall i :: n <= i < |s| ==> s[i].None?
  {
    if s == [] then 0 else if s[|s| - 1].Some? then |s| else FilledEnd(s[..|s| - 1])
  }

  /** The timer handler. */
  function Flush(t: Table): (r: (Table, seq<Packet>))
    ensures |r.0.slots| == |t.slots|
  {
    var n := FilledEnd(t.slots);
    var t' := t.(timerSet := false);
    if n == 0 then (t', []) else DispatchUntil(t', (t.start + n) % SEQ_SPACE)
  }

  /** Deleting the table releases everything that is still buffered. */
  function Delete(t: Table): seq<Packet> {
    DispatchUntil(t, (t.start + |t.slots|) % SEQ_SPACE).1
  }

  function Create(ssn: int, lastSeq: Option<int>, winSize: nat): Table {
    var shifted := lastSeq.Some? && lastSeq.value >= ssn;
    Table(if shifted then lastSeq.value + 1 else ssn, ssn, Empties(winSize), shifted, false, false, false)
  }

  /** The sender started its counter again below the start that creation had moved ahead. */
  predicate InitReset(t: Table, sn: int) {
    !t.forceNoDrop && t.initShift && t.initWin <= sn < t.start
  }

  /** The window start that the tests of an arrival use. */
  function StartFor(t: Table, sn: int): int {
    if InitReset(t, sn) then sn else t.start
  }

  predicate Dropped(t: Table, sn: int) {
    !t.forceNoDrop && !InitReset(t, sn) && Dist(sn, t.start) >= HALF_SPACE
  }

  /** The last sequence number the window has to cover: a BAR names its first one. */
  function LastCovered(t: Table, sn: int, kind: PktType): int {
    if kind == Bar then (sn + |t.slots| - 1) % SEQ_SPACE else sn
  }

  /** The window test works. With one slot it does only right after a creation that moved the start to
      4096, and with none never. */
  predicate CanShift(winSize: nat, start: int) { winSize >= 2 || (winSize == 1 && start == SEQ_SPACE) }

  predicate Shifts(t: Table, sn: int, kind: PktType) {
    CanShift(|t.slots|, StartFor(t, sn)) && Dist(LastCovered(t, sn, kind), StartFor(t, sn)) >= |t.slots|
  }

  function ShiftStart(t: Table, sn: int, kind: PktType): int {
    (LastCovered(t, sn, kind) - |t.slots| + 1) % SEQ_SPACE
  }

  /** The window moved, if it has to, so that it covers the arrival. Both flags are one-shot. */
  function MakeRoom(t: Table, sn: int, kind: PktType): (r: (Table, seq<Packet>))
    ensures |r.0.slots| == |t.slots|
    ensures |t.slots| >= 2 ==> Dist(LastCovered(t, sn, kind), r.0.start) < |t.slots|
  {
    var t0 := t.(initShift := false, forceNoDrop := false, start := StartFor(t, sn));
    if Shifts(t, sn, kind) then DispatchUntil(t0, ShiftStart(t, sn, kind)) else (t0, [])
  }

  function Opt(p: Slot): seq<Packet> { if p.Some? then [p.value] else [] }

  /** The second half of an arrival, once the window covers it. */
  function Admit(t: Table, sn: int, kind: PktType, payload: Slot): (v: Verdict)
    requires kind != Bar ==> Dist(sn, t.start) < |t.slots|
    ensures |v.tbl.slots| == |t.slots|
  {
    var i := Dist(sn, t.start);
    if kind == Bar then
      var (t', out) := Scan(t); Verdict(t', 0, out)
    else if t.slots[i].Some? then
      Verdict(t, -1, [])
    else
      var (t', out) := Scan(t.(slots := t.slots[i := payload])); Verdict(t', 0, out)
  }

  /** The arrival has a slot, or needs none. */
  predicate Lands(t: Table, sn: int, kind: PktType) {
    kind == Bar || Dropped(t, sn) || Shifts(t, sn, kind) || Dist(sn, StartFor(t, sn)) < |t.slots|
  }

  /** An arrival that goes through the table, up to restarting the timer. */
  function Process(t: Table, sn: int, kind: PktType, payload: Slot): (v: Verdict)
    requires |t.slots| >= 2 || Lands(t, sn, kind)
    ensures |v.tbl.slots| == |t.slots|
  {
    if Dropped(t, sn) then
      Verdict(t.(initShift := false, forceNoDrop := false), -1, [])
    else
      var (t1, out1) := MakeRoom(t, sn, kind);
      var v := Admit(t1, sn, kind, payload);
      v.(out := out1 + v.out)
  }

  /** A frame that the driver would store outside the array. */
  predicate Strays(t: Table, sn: int, kind: PktType) {
    !(kind == Amsdu && !t.amsdu) && !Lands(t, sn, kind)
  }

  function Receive(t: Table, sn: int, kind: PktType, payload: Slot): (v: Verdict)
    requires |t.slots| >= 2 || !Strays(t, sn, kind)
    ensures |v.tbl.slots| == |t.slots|
  {
    if kind == Amsdu && !t.amsdu then Verdict(t, 0, Opt(payload))
    else var v := Process(t, sn, kind, payload); v.(tbl := v.tbl.(timerSet := true))
  }

  /** Everything that can happen to one table between its creation and its deletion. */
  datatype Op =
    | Arrive(sn: int, kind: PktType, payload: Slot)
    | TimerExpires
    | ReAddBa(ssn: int)
    | AddBaResponse(amsdu: bool)
    | HostSleeps

  /** Sequence numbers are 12 bits wide, and a frame carries the low bits of its own number. */
  predicate WireFormat(op: Op) {
    match op
    case Arrive(sn, _, p) => 0 <= sn < SEQ_SPACE && (p.Some? ==> p.value.number % SEQ_SPACE == sn)
    case ReAddBa(ssn) => 0 <= ssn < SEQ_SPACE
    case _ => true
  }

  function Step(t: Table, op: Op): (v: Verdict)
    requires |t.slots| >= 2
    ensures |v.tbl.slots| == |t.slots|
  {
    match op
    case Arrive(sn, kind, p) => Receive(t, sn, kind, p)
    case TimerExpires => var (t', out) := Flush(t); Verdict(t', 0, out)
    case ReAddBa(ssn) => var (t', out) := DispatchUntil(t, ssn); Verdict(t', 0, out)
    case AddBaResponse(amsdu) => Verdict(t.(amsdu := amsdu), 0, [])
    case HostSleeps => Verdict(t.(initShift := false, forceNoDrop := true), 0, [])
  }

  function Run(t: Table, ops: seq<Op>): (r: (Table, seq<Packet>))
    requires |t.slots| >= 2
    ensures |r.0.slots| == |t.slots|
    decreases |ops|
  {
    if ops == [] then (t, [])
    else
      var v := Step(t, ops[0]);
      var (t', out) := Run(v.tbl, ops[1..]);
      (t', v.out + out)
  }

  // ------------------------------------------------------------------ invariant

  /** A packet in slot i was received with sequence number start + i, modulo 4096. */
  predicate Aligned(start: int, slots: seq<Slot>) {
    forall i :: 0 <= i < |slots| && slots[i].Some? ==> Dist(slots[i].value.number, start) == i
  }

  predicate Inv(t: Table) {
    && 2 <= |t.slots| <= 1023
    && 0 <= t.start <= SEQ_SPACE  // 4096 itself only right after creation
    && 0 <= t.initWin < SEQ_SPACE
    && Aligned(t.start, t.slots)
    && (t.initShift ==> AllEmpty(t.slots))
  }

  lemma CreateEstablishesInv(ssn: int, lastSeq: Option<int>, winSize: nat)
    requires 0 <= ssn < SEQ_SPACE && (lastSeq.Some? ==> 0 <= lastSeq.value < SEQ_SPACE)
    requires 2 <= winSize <= 1023
    ensures Inv(Create(ssn, lastSeq, winSize))
  {}

  lemma RotateAligned(start: int, newStart: int, slots: seq<Slot>, k: nat)
    requires |slots| <= 1023 && k <= |slots| && Aligned(start, slots)
    requires k == |slots| || newStart % SEQ_SPACE == (start + k) % SEQ_SPACE
    ensures Aligned(newStart, Rotate(slots, k))
  {
    var r := Rotate(slots, k);
    forall i | 0 <= i < |r| && r[i].Some? ensures Dist(r[i].value.number, newStart) == i {
      assert r[i] == slots[k + i];
    }
  }

  lemma DispatchUntilKeepsInv(t: Table, newStart: int)
    requires Inv(t) && 0 <= newStart < SEQ_SPACE
    ensures Inv(DispatchUntil(t, newStart).0)
  {
    RotateAligned(t.start, newStart, t.slots, SendCount(t.start, newStart, |t.slots|));
  }

  lemma ScanKeepsInv(t: Table)
    requires Inv(t)
    ensures Inv(Scan(t).0)
    ensures Scan(t).0.slots[0].None?
  {
    RotateAligned(t.start, (t.start + RunLength(t.slots)) % SEQ_SPACE, t.slots, RunLength(t.slots));
  }

  lemma MakeRoomKeepsInv(t: Table, sn: int, kind: PktType)
    requires Inv(t) && 0 <= sn < SEQ_SPACE
    ensures Inv(MakeRoom(t, sn, kind).0)
  {
    var t0 := t.(initShift := false, forceNoDrop := false, start := StartFor(t, sn));
    assert Inv(t0);
    if Shifts(t, sn, kind) { DispatchUntilKeepsInv(t0, ShiftStart(t, sn, kind)); }
  }

  lemma StoreKeepsInv(t: Table, sn: int, payload: Slot)
    requires Inv(t) && !t.initShift && Dist(sn, t.start) < |t.slots|
    requires payload.Some? ==> payload.value.number % SEQ_SPACE == sn
    ensures Inv(t.(slots := t.slots[Dist(sn, t.start) := payload]))
  {}

  lemma AdmitKeepsInv(t: Table, sn: int, kind: PktType, payload: Slot)
    requires Inv(t) && !t.initShift && WireFormat(Arrive(sn, kind, payload))
    requires kind != Bar ==> Dist(sn, t.start) < |t.slots|
    ensures Inv(Admit(t, sn, kind, payload).tbl)
    ensures Admit(t, sn, kind, payload).ret == 0 ==> Admit(t, sn, kind, payload).tbl.slots[0].None?
  {
    if kind == Bar {
      ScanKeepsInv(t);
    } else if t.slots[Dist(sn, t.start)].None? {
      StoreKeepsInv(t, sn, payload);
      ScanKeepsInv(t.(slots := t.slots[Dist(sn, t.start) := payload]));
    }
  }

  lemma ReceiveKeepsInv(t: Table, sn: int, kind: PktType, payload: Slot)
    requires Inv(t) && WireFormat(Arrive(sn, kind, payload))
    ensures Inv(Receive(t, sn, kind, payload).tbl)
  {
    if !Dropped(t, sn) {
      MakeRoomKeepsInv(t, sn, kind);
      AdmitKeepsInv(MakeRoom(t, sn, kind).0, sn, kind, payload);
    }
  }

  lemma FlushKeepsInv(t: Table)
    requires Inv(t)
    ensures Inv(Flush(t).0)
  {
    if FilledEnd(t.slots) > 0 {
      DispatchUntilKeepsInv(t.(timerSet := false), (t.start + FilledEnd(t.slots)) % SEQ_SPACE);
    }
  }

  /** Alignment and the flag invariant survive every operation. */
  lemma StepKeepsInv(t: Table, op: Op)
    requires Inv(t) && WireFormat(op)
    ensures Inv(Step(t, op).tbl)
  {
    match op
    case Arrive(sn, kind, p) => ReceiveKeepsInv(t, sn, kind, p);
    case TimerExpires => FlushKeepsInv(t);
    case ReAddBa(ssn) => DispatchUntilKeepsInv(t, ssn);
    case AddBaResponse(_) =>
    case HostSleeps =>
  }

  lemma {:induction false} RunKeepsInv(t: Table, ops: seq<Op>)
    requires Inv(t) && forall i :: 0 <= i < |ops| ==> WireFormat(ops[i])
    ensures Inv(Run(t, ops).0)
    decreases |ops|
  {
    if ops != [] {
      StepKeepsInv(t, ops[0]);
      RunKeepsInv(Step(t, ops[0]).tbl, ops[1..]);
    }
  }
}
