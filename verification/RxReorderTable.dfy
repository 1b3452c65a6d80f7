/** The driver's receive reorder table: a linear array rotated in place. Each method runs the
    driver's own loops and comparisons and is proved against the value-level table of RxReorder.
    The `out` results are the packets passed to `mwifiex_11n_dispatch_pkt`, in order. */
module RxReorderTable {
  import opened Wrappers
  import opened RxReorder
  import Laws = RxReorderLaws

  const DEF_RX_SEQ_NUM := 0xffff  // MWIFIEX_DEF_11N_RX_SEQ_NUM

  class ReorderTable {
    var startWin: int
    var initWin: int
    var winSize: int
    var ptr: array<Slot>  // rx_reorder_ptr
    var initWindowShift: bool
    var forceNoDrop: bool
    var amsdu: bool
    var timerIsSet: bool

    ghost predicate Valid()
      reads this, ptr
    {
      ptr.Length == winSize && Inv(View())
    }

    /** What the window arithmetic of one call needs to know. */
    ghost predicate Ready()
      reads this, ptr
    {
      ptr.Length == winSize <= 1023 && 0 <= startWin <= SEQ_SPACE
    }

    ghost function View(): Table
      reads this, ptr
    {
      Table(startWin, initWin, ptr[..], initWindowShift, forceNoDrop, amsdu, timerIsSet)
    }

    /** `mwifiex_11n_create_rx_reorder_tbl` for a pair that has no table yet, with any window size that
        the ten bits of an ADDBA request can hold. */
    constructor (winSize: nat, seqNum: int, lastSeq: int)
      requires winSize <= 1023 && 0 <= seqNum < SEQ_SPACE
      requires lastSeq == DEF_RX_SEQ_NUM || 0 <= lastSeq < SEQ_SPACE
      ensures fresh(ptr) && ptr.Length == this.winSize == winSize
      ensures winSize >= 2 ==> Valid()
      ensures View() == Create(seqNum, if lastSeq == DEF_RX_SEQ_NUM then None else Some(lastSeq), winSize)
    {
      this.startWin := seqNum;
      this.initWin := seqNum;
      initWindowShift, forceNoDrop, amsdu := false, false, false;
      if lastSeq != DEF_RX_SEQ_NUM && lastSeq >= seqNum {
        this.startWin := lastSeq + 1;
        initWindowShift := true;
      }
      this.winSize := winSize;
      timerIsSet := false;
      var slots := new Slot[winSize];
      ptr := slots;
      new;
      for i := 0 to winSize
        invariant ptr == slots && fresh(slots)
        invariant forall j :: 0 <= j < i ==> slots[j] == None
        modifies slots
      {
        slots[i] := None;
      }
      assert ptr[..] == Empties(winSize);
    }

    /** Frees the first `k` slots and hands their packets on. */
    method Release(k: int) returns (out: seq<Packet>)
      requires ptr.Length == winSize && 0 <= k <= winSize
      modifies ptr
      ensures ptr[..] == Empties(k) + old(ptr[..])[k..]
      ensures out == Packets(old(ptr[..])[..k])
    {
      ghost var s := ptr[..];
      out := [];
      for i := 0 to k
        invariant forall j :: 0 <= j < i ==> ptr[j] == None
        invariant forall j :: i <= j < winSize ==> ptr[j] == s[j]
        invariant out == Packets(s[..i])
      {
        Laws.PacketsAppend(s[..i], [s[i]]);
        assert s[..i + 1] == s[..i] + [s[i]];
        if ptr[i].Some? {
          var rxTmpPtr := ptr[i];
          ptr[i] := None;
          out := out + [rxTmpPtr.value];
        }
      }
    }

    /** Moves the slots from `k` on to the front, one at a time; the first `k` are free already. */
    method RotateBy(k: int)
      requires ptr.Length == winSize && 1 <= k <= winSize
      requires forall j :: 0 <= j < k ==> ptr[j] == None
      modifies ptr
      ensures ptr[..] == old(ptr[..])[k..] + Empties(k)
    {
      for i := 0 to winSize - k
        invariant forall j :: 0 <= j < i ==> ptr[j] == old(ptr[k + j])
        invariant forall j :: i <= j < k + i ==> ptr[j] == None
        invariant forall j :: k + i <= j < winSize ==> ptr[j] == old(ptr[j])
      {
        ptr[i] := ptr[k + i];
        ptr[k + i] := None;
      }
    }

    /** `mwifiex_11n_dispatch_pkt_until_start_win` */
    method DispatchPktUntilStartWin(newStart: int) returns (out: seq<Packet>)
      requires ptr.Length == winSize
      modifies this`startWin, ptr
      ensures (View(), out) == DispatchUntil(old(View()), newStart)
    {
      var pktToSend := if newStart > startWin
                       then (if newStart - startWin < winSize then newStart - startWin else winSize)
                       else winSize;
      ghost var s := ptr[..];
      assert pktToSend == SendCount(startWin, newStart, |s|);
      out := Release(pktToSend);
      assert ptr[..][pktToSend..] == s[pktToSend..];
      if winSize > 0 { RotateBy(pktToSend); }  // without slots the loop has no rounds
      startWin := newStart;
    }

    /** Hands on the packets before the first hole. */
    method ReleaseRun() returns (i: int, out: seq<Packet>)
      requires ptr.Length == winSize
      modifies ptr
      ensures i == RunLength(old(ptr[..]))
      ensures ptr[..] == Empties(i) + old(ptr[..])[i..] && out == Packets(old(ptr[..])[..i])
    {
      i := 0;
      out := [];
      ghost var s := ptr[..];
      while i < winSize
        invariant 0 <= i <= winSize
        invariant forall j :: 0 <= j < i ==> ptr[j] == None && s[j].Some?
        invariant forall j :: i <= j < winSize ==> ptr[j] == s[j]
        invariant out == Packets(s[..i])
        modifies ptr
      {
        if ptr[i].None? { break; }
        Laws.PacketsAppend(s[..i], [s[i]]);
        assert s[..i + 1] == s[..i] + [s[i]];
        var rxTmpPtr := ptr[i];
        ptr[i] := None;
        out := out + [rxTmpPtr.value];
        i := i + 1;
      }
    }

    /** `mwifiex_11n_scan_and_dispatch` */
    method ScanAndDispatch() returns (out: seq<Packet>)
      requires ptr.Length == winSize
      modifies this`startWin, ptr
      ensures (View(), out) == Scan(old(View()))
    {
      var i;
      ghost var s := ptr[..];
      i, out := ReleaseRun();
      assert ptr[..][i..] == s[i..];
      if i > 0 { RotateBy(i); }
      assert ptr[..] == Rotate(s, i);
      startWin := (startWin + i) % SEQ_SPACE;
    }

    /** `mwifiex_11n_find_last_seq_num` */
    method FindLastSeqNum() returns (i: int)
      requires ptr.Length == winSize
      ensures i == FilledEnd(ptr[..]) - 1
    {
      i := winSize - 1;
      while i >= 0
        invariant -1 <= i < winSize
        invariant forall j :: i < j < winSize ==> ptr[j].None?
      {
        if ptr[i].Some? { return; }
        i := i - 1;
      }
    }

    /** `mwifiex_flush_data` */
    method FlushData() returns (out: seq<Packet>)
      requires Ready()
      modifies this`startWin, this`timerIsSet, ptr
      ensures (View(), out) == Flush(old(View()))
    {
      timerIsSet := false;
      var seqNum := FindLastSeqNum();
      if seqNum < 0 { return []; }
      out := DispatchPktUntilStartWin((startWin + seqNum + 1) % SEQ_SPACE);
    }

    /** `mwifiex_11n_create_rx_reorder_tbl` for a pair that has a table: the new window size is
        ignored. */
    method ReAddBa(seqNum: int) returns (out: seq<Packet>)
      requires Ready() && 0 <= seqNum < SEQ_SPACE
      modifies this`startWin, ptr
      ensures Ready() && (old(Valid()) ==> Valid())
      ensures (View(), out) == DispatchUntil(old(View()), seqNum)
    {
      if Valid() { DispatchUntilKeepsInv(View(), seqNum); }
      out := DispatchPktUntilStartWin(seqNum);
    }

    /** `mwifiex_del_rx_reorder_entry`, up to freeing the memory. */
    method DelRxReorderEntry() returns (out: seq<Packet>)
      requires Ready()
      modifies this, ptr
      ensures out == Packets(old(ptr[..])) && AllEmpty(ptr[..]) && !timerIsSet
    {
      ghost var t := View();
      var end := (startWin + winSize) % SEQ_SPACE;
      out := DispatchPktUntilStartWin(end);
      Laws.DeleteReleasesAll(t, end);
      timerIsSet := false;
    }

    /** The table part of `mwifiex_11n_rx_reorder_pkt`. Where the driver would store behind the array,
        which is where the model stops, `stray` is true. */
    method Reorder(seqNum: int, pktType: PktType, payload: Slot) returns (ret: int, out: seq<Packet>, stray: bool)
      requires Ready() && 0 <= seqNum < SEQ_SPACE
      modifies this, ptr
      ensures ptr == old(ptr) && winSize == old(winSize)
      ensures stray == Strays(old(View()), seqNum, pktType)
      ensures !stray ==> Verdict(View(), ret, out) == Receive(old(View()), seqNum, pktType, payload)
    {
      if pktType == Amsdu && !amsdu {
        return 0, Opt(payload), false;
      }
      var prevStartWin := startWin;
      ret, out, stray := ProcessArrival(seqNum, pktType, payload);
      if stray { return; }
      Done(prevStartWin);
    }

    method ProcessArrival(seqNum0: int, pktType: PktType, payload: Slot)
      returns (ret: int, out: seq<Packet>, stray: bool)
      requires Ready() && 0 <= seqNum0 < SEQ_SPACE
      modifies this`startWin, this`initWindowShift, this`forceNoDrop, ptr
      ensures stray == !Lands(old(View()), seqNum0, pktType)
      ensures !stray ==> Verdict(View(), ret, out) == Process(old(View()), seqNum0, pktType, payload)
    {
      ghost var t0 := View();
      var accepted := CheckOld(seqNum0);
      if !accepted {
        return -1, [], false;
      }
      var seqNum;
      seqNum, out := Cover(seqNum0, pktType, t0);
      var out2;
      ret, out2, stray := Place(seqNum, pktType, payload);
      out := out + out2;
    }

    /** The number that has to be in the window, and the window's shift (lines 626-643). */
    method Cover(seqNum0: int, pktType: PktType, ghost t0: Table) returns (seqNum: int, out: seq<Packet>)
      requires Ready() && 0 <= seqNum0 < SEQ_SPACE
      requires View() == t0.(initShift := false, forceNoDrop := false, start := StartFor(t0, seqNum0))
      modifies this`startWin, ptr
      ensures Ready() && 0 <= seqNum < SEQ_SPACE
      ensures Shifts(t0, seqNum0, pktType) ==> Dist(seqNum, startWin) < winSize
      ensures (View(), out) == MakeRoom(t0, seqNum0, pktType) && (pktType != Bar ==> seqNum == seqNum0)
    {
      seqNum := seqNum0;
      if pktType == Bar {
        seqNum := (seqNum + winSize - 1) % SEQ_SPACE;
      }
      Laws.RoomFor(t0, seqNum0, pktType, View(), seqNum);
      out := ShiftWindow(seqNum);
    }

    /** Lines 646-649 */
    method IndexOf(seqNum: int) returns (pktIndex: nat)
      requires Ready() && 0 <= seqNum < SEQ_SPACE
      ensures pktIndex == Dist(seqNum, startWin)
    {
      pktIndex := if seqNum >= startWin then seqNum - startWin else seqNum + SEQ_SPACE - startWin;
    }

    /** The store and the scan (lines 645-663). */
    method Place(seqNum: int, pktType: PktType, payload: Slot) returns (ret: int, out: seq<Packet>, stray: bool)
      requires Ready() && 0 <= seqNum < SEQ_SPACE
      modifies this`startWin, ptr
      ensures stray == (pktType != Bar && Dist(seqNum, old(startWin)) >= winSize)
      ensures !stray ==> Verdict(View(), ret, out) == Admit(old(View()), seqNum, pktType, payload)
    {
      ghost var t := View();
      if pktType != Bar {
        var pktIndex := IndexOf(seqNum);
        if pktIndex >= winSize {
          return 0, [], true;
        }
        if ptr[pktIndex].Some? {
          return -1, [], false;
        }
        ptr[pktIndex] := payload;
        assert ptr[..] == t.slots[pktIndex := payload];
      }
      out := ScanAndDispatch();
      ret, stray := 0, false;
    }

    /** The flags and the test for old frames (lines 591-624). */
    method CheckOld(seqNum: int) returns (accepted: bool)
      requires Ready() && 0 <= seqNum < SEQ_SPACE
      modifies this`startWin, this`initWindowShift, this`forceNoDrop
      ensures Ready() && accepted == !Dropped(old(View()), seqNum)
      ensures View() == old(View()).(initShift := false, forceNoDrop := false, start := StartFor(old(View()), seqNum))
    {
      var start := startWin;
      var shift := false;
      if initWindowShift {
        shift := true;
        initWindowShift := false;
      }
      Laws.OldTestExact(start, seqNum);
      accepted := true;
      if forceNoDrop {
        forceNoDrop := false;
      } else if shift && seqNum < start && seqNum >= initWin {
        startWin := seqNum;
      } else if start + HALF_SPACE > SEQ_SPACE - 1 {
        if seqNum >= (start + HALF_SPACE) % SEQ_SPACE && seqNum < start {
          accepted := false;
        }
      } else if seqNum < start || seqNum >= start + HALF_SPACE {
        accepted := false;
      }
    }

    /** The window test and the move of the window (lines 590, 606 and 633-643). */
    method ShiftWindow(seqNum: int) returns (out: seq<Packet>)
      requires Ready() && 0 <= seqNum < SEQ_SPACE
      modifies this`startWin, ptr
      ensures Ready()
      ensures CanShift(winSize, old(startWin)) && Dist(seqNum, old(startWin)) >= winSize ==>
                Dist(seqNum, startWin) < winSize &&
                (View(), out) == DispatchUntil(old(View()), (seqNum - winSize + 1) % SEQ_SPACE)
      ensures !CanShift(winSize, old(startWin)) || Dist(seqNum, old(startWin)) < winSize ==>
                (View(), out) == (old(View()), [])
    {
      var outside, start := NewStart(seqNum);
      out := [];
      if outside { out := DispatchPktUntilStartWin(start); }
    }

    /** Whether the window has to shift, and where to (lines 590 and 633-641). */
    method NewStart(seqNum: int) returns (outside: bool, start: int)
      requires Ready() && 0 <= seqNum < SEQ_SPACE
      ensures outside == (CanShift(winSize, startWin) && Dist(seqNum, startWin) >= winSize)
      ensures outside ==> start == (seqNum - winSize + 1) % SEQ_SPACE && Dist(seqNum, start) < winSize
    {
      start := startWin;
      outside := false;
      var end := (start + winSize - 1) % SEQ_SPACE;
      Laws.OutsideTestDecides(start, winSize, seqNum);
      if || (end < start && seqNum < start && seqNum > end)
         || (end > start && (seqNum > end || seqNum < start))
      {
        outside := true;
        end := seqNum;
        if end - winSize + 1 >= 0 {
          start := end - winSize + 1;
        } else {
          start := SEQ_SPACE - (winSize - end) + 1;
        }
        Laws.StartEndingAtExact(seqNum, winSize);
        DistOnLine(seqNum, seqNum - winSize + 1, seqNum, start);
      }
    }

    /** The exit of `mwifiex_11n_rx_reorder_pkt`: the timer always runs afterwards. */
    method Done(prevStartWin: int)
      modifies this`timerIsSet
      ensures timerIsSet
    {
      if !timerIsSet || prevStartWin != startWin {
        timerIsSet := true;  // mwifiex_11n_rxreorder_timer_restart
      }
    }

    /** `mwifiex_ret_11n_addba_resp` on success. */
    method AddBaResponse(amsdu: bool)
      requires Valid()
      modifies this`amsdu
      ensures Valid() && View() == Step(old(View()), RxReorder.AddBaResponse(amsdu)).tbl
    {
      this.amsdu := amsdu;
    }

    /** `mwifiex_update_rxreor_flags` with its only argument, RXREOR_FORCE_NO_DROP: the flag byte
        is overwritten. */
    method UpdateRxReorFlags()
      requires Valid()
      modifies this`initWindowShift, this`forceNoDrop
      ensures Valid() && View() == Step(old(View()), HostSleeps).tbl
    {
      initWindowShift, forceNoDrop := false, true;
    }
  }

  /** `mwifiex_11n_rx_reorder_pkt`: without a table for the pair, frames pass straight through. */
  method RxReorderPkt(tbl: ReorderTable?, seqNum: int, pktType: PktType, payload: Slot)
    returns (ret: int, out: seq<Packet>, stray: bool)
    requires tbl != null ==> tbl.Ready()
    requires WireFormat(Arrive(seqNum, pktType, payload))
    modifies if tbl == null then {} else {tbl, tbl.ptr}
    ensures tbl == null ==> ret == 0 && out == (if pktType == Bar then [] else Opt(payload)) && !stray
    ensures tbl != null ==> stray == Strays(old(tbl.View()), seqNum, pktType)
    ensures tbl != null && !stray ==>
      Verdict(tbl.View(), ret, out) == Receive(old(tbl.View()), seqNum, pktType, payload)
    ensures tbl != null && old(tbl.Valid()) ==> tbl.Valid() && !stray
  {
    if tbl == null {
      return 0, if pktType != Bar then Opt(payload) else [], false;
    }
    if tbl.Valid() { ReceiveKeepsInv(tbl.View(), seqNum, pktType, payload); }
    ret, out, stray := tbl.Reorder(seqNum, pktType, payload);
  }

  /** The timer of one table. */
  method TimerFires(tbl: ReorderTable) returns (out: seq<Packet>)
    requires tbl.Ready()
    modifies tbl, tbl.ptr
    ensures (tbl.View(), out) == Flush(old(tbl.View())) && (old(tbl.Valid()) ==> tbl.Valid())
  {
    if tbl.Valid() { FlushKeepsInv(tbl.View()); }
    out := tbl.FlushData();
  }
}
