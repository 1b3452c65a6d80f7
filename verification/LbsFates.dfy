/** What callers can rely on: commands leave the queue in order, none is lost or completed twice, and
    none is completed without having been sent. */
module LbsFates {
  import opened Wrappers
  import opened LbsCommand
  import opened LbsCommandLaws
  import opened LbsCommandRuns
  import opened LbsHistory

  // ------------------------------------------------------------------------- order

  /** The command with this ticket is neither EXIT_PS nor WAKEUP_CONFIRM. */
  predicate KeepsItsPlace(q: Queues, t: nat) {
    t < |q.h.entered| && q.h.entered[t].cmd != PsMode(ExitPs) && q.h.entered[t].cmd != WakeupConfirm
  }

  /** Order: of any two commands that joined the queue and are neither EXIT_PS nor WAKEUP_CONFIRM, the one
      that joined it first leaves it first. */
  lemma LeaveInOrder(s: State, acts: seq<Act>, a: nat, b: nat)
    requires Reached(s, acts) && a < b < |Line(s.q)|
    requires KeepsItsPlace(s.q, Line(s.q)[a]) && KeepsItsPlace(s.q, Line(s.q)[b])
    ensures Line(s.q)[a] < Line(s.q)[b]
  {
    ReachedKept(s, acts);
    assert !s.q.h.entered[Line(s.q)[a]].front && !s.q.h.entered[Line(s.q)[b]].front;
  }

  /** In the line of commands every command that joined the queue stands once, and no other. */
  lemma LineHoldsAll(s: State, acts: seq<Act>, t: nat)
    requires Reached(s, acts)
    ensures multiset(Line(s.q))[t] == One(t < |s.q.h.entered|)
  {
    ReachedKept(s, acts);
    CountUpto(|s.q.h.entered|, t);
  }

  lemma CountUpto(n: nat, t: nat)
    ensures multiset(Upto(n))[t] == One(t < n)
  {
    Once(Upto(n), t);
    if t < n { assert Upto(n)[t] == t; }
  }

  /** And waiting in the queue stands, with its ticket, the command that joined it. */
  lemma WaitsAsItJoined(s: State, acts: seq<Act>, id: nat)
    requires Reached(s, acts) && (id in s.q.pending || s.q.cur == Some(id) || s.q.inHand == Some(id))
    ensures id in s.q.nodes && s.q.nodes[id].ticket < |s.q.h.entered|
    ensures s.q.h.entered[s.q.nodes[id].ticket].cmd == s.q.nodes[id].cmd
  {
    ReachedKept(s, acts);
    assert RecordedNode(s.q, id);
  }

  /** Only EXIT_PS and WAKEUP_CONFIRM are ever put at the head. */
  lemma OnlyJumpersInFront(s: State, acts: seq<Act>, i: nat)
    requires Reached(s, acts) && i < |s.q.h.entered| && s.q.h.entered[i].front
    ensures s.q.h.entered[i].cmd == PsMode(ExitPs) || s.q.h.entered[i].cmd == WakeupConfirm
  {
    ReachedKept(s, acts);
  }

  predicate NotInserted(acts: seq<Act>, id: nat) { acts != [] ==> acts[0] != Insert(id) && NotInserted(acts[1..], id) }

  /** A node that waits to be inserted, with this command and for this end of the queue */
  predicate Ready(q: Queues, id: nat, cmd: Command, front: bool) {
    Placed(q, id) && q.nodes[id].cmd == cmd && q.nodes[id].front == front
  }

  /** The node is still being filled, as it was. */
  predicate Spares(q: Queues, q': Queues, id: nat) {
    (id in q'.filling <==> id in q.filling) && id in q.nodes && id in q'.nodes && q'.nodes[id] == q.nodes[id]
  }

  lemma CompleteSpares(q: Queues, other: Option<nat>, condition: bool, id: nat)
    requires other != Some(id) && id in q.nodes
    ensures Spares(q, CompleteIf(q, other, condition), id)
  {}

  /** What the main thread does to the nodes, other than issuing a command */
  lemma MainNodes(s: State, ok: bool, sent: bool, q': Queues)
    requires q' == MainStep(s, ok, sent).q && !s.pc.Issue? && !s.pc.Unlink? && !s.pc.Submit1?
    ensures q' == s.q || q' == CompleteIf(s.q, s.q.cur, true)
      || ((s.pc.Peeked? || s.pc.SubmitFail? || s.pc.Submit3?) && q' == CompleteIf(s.q, Some(s.pc.id), true))
  {
    if Answering(s.pc) {
      AnswerNodes(s, q');
    } else if Sending(s.pc) {
      SendNodes(s, ok, sent, q');
    }
  }

  lemma AnswerNodes(s: State, q': Queues)
    requires q' == AnswerStep(s).q && Answering(s.pc)
    ensures q' == s.q || q' == CompleteIf(s.q, s.q.cur, true)
  {}

  lemma SendNodes(s: State, ok: bool, sent: bool, q': Queues)
    requires q' == SendStep(s, ok, sent).q && Sending(s.pc)
    ensures q' == s.q || ((s.pc.SubmitFail? || s.pc.Submit3?) && q' == CompleteIf(s.q, Some(s.pc.id), true))
  {}

  /** The node that the main thread is dealing with is current or in the queue. */
  lemma NotFilling(s: State, id: nat)
    requires Inv(s) && id in s.q.filling
    ensures s.q.cur != Some(id) && s.q.inHand != Some(id) && id in s.q.nodes && id !in s.q.free
    ensures s.pc.Peeked? || s.pc.Unlink? || s.pc.Submit1? || s.pc.SubmitFail? ==> s.pc.id != id
    ensures s.pc.Submit3? && s.pc.cmd == DeepSleep ==> s.pc.id != id
  {
    FillingAlone(s.q, id);
    if Considered(s.pc).Some? { JumpersPresent(s.q.nodes, s.q.pending, Considered(s.pc).value); }
  }

  lemma MainSparesReady(s: State, ok: bool, sent: bool, id: nat, q': Queues)
    requires Inv(s) && id in s.q.filling && q' == MainStep(s, ok, sent).q
    ensures Spares(s.q, q', id)
  {
    NotFilling(s, id);
    if !s.pc.Issue? && !s.pc.Unlink? && !s.pc.Submit1? && !(s.pc.Submit3? && s.pc.cmd != DeepSleep) {
      MainNodes(s, ok, sent, q');
      CompleteSpares(s.q, s.q.cur, true, id);
      if s.pc.Peeked? || s.pc.SubmitFail? || s.pc.Submit3? { CompleteSpares(s.q, Some(s.pc.id), true, id); }
    }
  }

  lemma StepSparesReady(s: State, a: Act, id: nat, cmd: Command, front: bool, q': Queues)
    requires Inv(s) && Ready(s.q, id, cmd, front) && Allowed(s, a) && a != Insert(id) && q' == Step(s, a).q
    ensures Ready(q', id, cmd, front)
  {
    FillingAlone(s.q, id);
    if a.Main? { MainSparesReady(s, a.ok, a.sent, id, q'); }
  }

  lemma {:induction false} StaysReady(s: State, acts: seq<Act>, id: nat, cmd: Command, front: bool)
    requires Inv(s) && Ready(s.q, id, cmd, front) && Possible(s, acts) && NotInserted(acts, id)
    ensures Ready(Run(s, acts).q, id, cmd, front)
    decreases |acts|
  {
    if acts != [] {
      StepSparesReady(s, acts[0], id, cmd, front, Step(s, acts[0]).q);
      StepKeepsInv(s, acts[0], Step(s, acts[0]));
      StaysReady(Step(s, acts[0]), acts[1..], id, cmd, front);
    }
  }

  /** Whatever happens between the choice of a place and the insertion: WAKEUP_CONFIRM, and EXIT_PS
      unless the choice was made in FULL_POWER, go before everything that waits, all else behind it. */
  lemma JoinsAtItsEnd(s: State, before: seq<Act>, id: nat, acts: seq<Act>)
    requires Reached(s, before) && Allowed(s, Place(id))
    requires Possible(Step(s, Place(id)), acts) && NotInserted(acts, id)
    ensures var s2, cmd := Run(Step(s, Place(id)), acts), s.q.nodes[id].cmd;
      && Allowed(s2, Insert(id))
      && Step(s2, Insert(id)).q.pending ==
           if cmd == WakeupConfirm || (cmd == PsMode(ExitPs) && s.power.psstate != FullPower)
           then [id] + s2.q.pending else s2.q.pending + [id]
  {
    ReachedInv(s, before);
    var s1, cmd := Step(s, Place(id)), s.q.nodes[id].cmd;
    StepKeepsInv(s, Place(id), s1);
    StaysReady(s1, acts, id, cmd, s1.q.nodes[id].front);
  }

  // -------------------------------------------------------------------------- fates

  /** No command is lost or dealt with twice: each that joined the queue waits in it, is on its way to
      the card, is current, or was completed; it is so once, and it was submitted at most once. */
  lemma EachCommandOnce(s: State, acts: seq<Act>, t: nat)
    requires Reached(s, acts)
    ensures multiset(Tickets(s.q.nodes, s.q.pending))[t] + HeldTicket(s.q.nodes, s.q.inHand)[t]
            + HeldTicket(s.q.nodes, s.q.cur)[t] + multiset(s.q.h.completed)[t] == One(t < |s.q.h.entered|)
    ensures multiset(s.q.h.submitted)[t] <= 1
  {
    LineHoldsAll(s, acts, t);
    ReachedKept(s, acts);
    var waiting := Tickets(s.q.nodes, s.q.pending);
    assert multiset(Line(s.q)) == multiset(s.q.h.left) + multiset(waiting);
    assert multiset(s.q.h.submitted)[t] <= multiset(s.q.h.left)[t];
  }

  /** No command but a PS_MODE command is completed that was not submitted before. */
  lemma NoneCompletedUnsent(s: State, acts: seq<Act>, i: nat)
    requires Reached(s, acts) && i < |s.q.h.completed|
    ensures s.q.h.completed[i] < |s.q.h.entered|
    ensures s.q.h.entered[s.q.h.completed[i]].cmd.PsMode? || s.q.h.completed[i] in s.q.h.submitted
  {
    ReachedKept(s, acts);
    assert SentOrIgnored(s.q, s.q.h.completed[i]);
  }

  /** A node that is free again is clean, and a completed one is kept only for a caller that sleeps on it. */
  lemma NodesAreReturned(s: State, acts: seq<Act>, id: nat)
    requires Reached(s, acts)
    ensures id in s.q.free ==> id in s.q.nodes && s.q.nodes[id] == CLEAN
    ensures id in s.q.done ==> id in s.q.nodes && s.q.nodes[id].waited
  {
    ReachedKept(s, acts);
  }

  lemma {:induction false} RemoveOthers(list: seq<nat>, other: nat, id: nat)
    requires id in list && id != other
    ensures id in Remove(list, other)
  {
    if list[0] != other && list[0] != id { RemoveOthers(list[1..], other, id); }
  }

  lemma CompleteLeaves(q: Queues, other: Option<nat>, id: nat)
    requires other != Some(id) && id in q.pending
    ensures id in CompleteIf(q, other, true).pending
  {
    if other.Some? { RemoveOthers(q.pending, other.value, id); }
  }

  lemma MainTakesOff(s: State, ok: bool, sent: bool, id: nat, q': Queues)
    requires Inv(s) && id in s.q.pending && q' == MainStep(s, ok, sent).q && id !in q'.pending
    ensures s.pc == Unlink(id) || s.pc == Peeked(id)
  {
    if s.q.cur.Some? { CurrentAlone(s.q, s.q.cur.value); }
    if s.pc.Unlink? {
      if s.pc.id != id { RemoveOthers(s.q.pending, s.pc.id, id); }
    } else if !s.pc.Issue? && !s.pc.Submit1? && !(s.pc.Submit3? && s.pc.cmd != DeepSleep) {
      MainNodes(s, ok, sent, q');
      CompleteLeaves(s.q, s.q.cur, id);
      if (s.pc.Peeked? || s.pc.SubmitFail? || s.pc.Submit3?) && s.pc.id != id {
        CompleteLeaves(s.q, Some(s.pc.id), id);
      }
    }
  }

  /** A command that is not PS_MODE is never ignored. */
  lemma PeekedStays(s: State, id: nat)
    requires s.pc == Peeked(id) && !CmdOf(s.q, id).PsMode?
    ensures ConsiderCommand(s, id).q == s.q
  {}

  /** A command that is not a PS_MODE command leaves the queue only into the main thread's hands, about
      to be submitted, and in a power state that lets it through. */
  lemma LeavesToBeSubmitted(s: State, before: seq<Act>, a: Act, id: nat, s': State)
    requires Reached(s, before) && Enabled(s, a) && s' == Step(s, a)
    requires id in s.q.pending && id !in s'.q.pending && !CmdOf(s.q, id).PsMode?
    ensures s'.q.inHand == Some(id) && s'.pc == Submit1(id)
    ensures s.power.psstate == FullPower || (s.power.psstate == Awake && CmdOf(s.q, id) in [Rssi, HostSleepCfg])
  {
    ReachedInv(s, before);
    if a.Main? { MainTakesOff(s, a.ok, a.sent, id, s'.q); }
    if s.pc == Peeked(id) { PeekedStays(s, id); }
  }

  /** And there the next thing that happens to it is its submission. */
  lemma InHandIsSubmitted(s: State, before: seq<Act>, id: nat, ok: bool, sent: bool)
    requires Reached(s, before) && s.q.inHand == Some(id)
    ensures var s' := Step(s, Main(ok, sent));
      && s'.q.cur == Some(id) && s'.q.inHand == None && id in s.q.nodes
      && s'.q.h.submitted == s.q.h.submitted + [s.q.nodes[id].ticket] && s'.pc == Submit2(id)
      && s'.q.nodes[id].seqnum == (s.link.seqnum + 1) % 0x1_0000 == s'.link.seqnum
  {
    ReachedInv(s, before);
    InHandAlone(s.q, id);
  }

  // ------------------------------------------------------------- what the card is given

  function CommandsOn(wire: seq<Transfer>): seq<Command> {
    if wire == [] then []
    else
      var t := wire[|wire| - 1];
      CommandsOn(wire[..|wire| - 1]) + if t.what.Cmd? then [t.what.cmd] else []
  }

  function CommandsOf(entered: seq<Entry>, tickets: seq<nat>): (c: seq<Command>)
    ensures |c| == |tickets|
  {
    seq(|tickets|, i requires 0 <= i < |tickets| =>
                     if tickets[i] < |entered| then entered[tickets[i]].cmd else Plain(0))
  }

  /** The commands on the wire are those submitted, in order; the last may still be on its way. */
  predicate Carried(s: State) {
    && CommandsOn(s.log.wire) + (if s.pc.Submit2? then [CmdOf(s.q, s.pc.id)] else []) ==
         CommandsOf(s.q.h.entered, s.q.h.submitted)
    && |s.q.h.submitted| == s.log.submissions
  }

  lemma OneMore(wire: seq<Transfer>, t: Transfer)
    ensures CommandsOn(wire + [t]) == CommandsOn(wire) + if t.what.Cmd? then [t.what.cmd] else []
  {
    assert (wire + [t])[..|wire|] == wire;
  }

  predicate SameWire(s: State, s': State) {
    s'.q.h.submitted == s.q.h.submitted && s'.log.submissions == s.log.submissions
    && CommandsOn(s'.log.wire) == CommandsOn(s.log.wire) && !s.pc.Submit2? && !s'.pc.Submit2?
  }

  lemma CarriedOn(s: State, s': State)
    requires Carried(s) && SameWire(s, s') && s'.q.h.entered == s.q.h.entered
    ensures Carried(s')
  {}

  lemma DetourSameWire(s: State, ok: bool, sent: bool, s': State)
    requires s' == DetourStep(s, ok, sent) && Detouring(s.pc)
    ensures SameWire(s, s') && s'.q.h.entered == s.q.h.entered
  {
    OneMore(s.log.wire, Transfer(ConfirmSleep, s.power.psstate, s.link.dnld));
  }

  lemma SendSameWire(s: State, ok: bool, sent: bool, s': State)
    requires s' == SendStep(s, ok, sent) && Sending(s.pc) && !s.pc.Submit2?
    ensures SameWire(s, s') && s'.q.h.entered == s.q.h.entered
  {
    OneMore(s.log.wire, Transfer(Frame, s.power.psstate, s.link.dnld));
  }

  lemma AnswerSameWire(s: State, s': State)
    requires s' == AnswerStep(s) && Answering(s.pc)
    ensures SameWire(s, s') && s'.q.h.entered == s.q.h.entered
  {}

  lemma MainSameWire(s: State, ok: bool, sent: bool, s': State)
    requires s' == MainStep(s, ok, sent) && !s.pc.Submit1? && !s.pc.Submit2?
    ensures SameWire(s, s') && s'.q.h.entered == s.q.h.entered
  {
    if Answering(s.pc) {
      AnswerSameWire(s, s');
    } else if Detouring(s.pc) {
      DetourSameWire(s, ok, sent, s');
    } else if Sending(s.pc) {
      SendSameWire(s, ok, sent, s');
    }
  }

  lemma SubmitCarries(s: State, id: nat)
    requires Inv(s) && Kept(s.q) && Carried(s) && s.pc == Submit1(id)
    ensures id in s.q.nodes && Carried(Submit(s, id, NextSeqnum(s.link.seqnum)))
  {
    InHandAlone(s.q, id);
    assert RecordedNode(s.q, id);
    var q' := MakeCurrent(s.q, id, NextSeqnum(s.link.seqnum));
    assert CommandsOf(q'.h.entered, q'.h.submitted) ==
           CommandsOf(s.q.h.entered, s.q.h.submitted) + [CmdOf(q', id)];
  }

  lemma SendCarries(s: State, id: nat, ok: bool, sent: bool)
    requires Carried(s) && s.pc == Submit2(id)
    ensures Carried(SendCommand(s, id, ok, sent))
  {
    OneMore(s.log.wire, Transfer(Cmd(CmdOf(s.q, id)), s.power.psstate, s.link.dnld));
  }

  lemma ElsewhereCarries(s: State, ok: bool, sent: bool, s': State)
    requires Carried(s) && s' == MainStep(s, ok, sent) && !s.pc.Submit1? && !s.pc.Submit2?
    ensures Carried(s')
  {
    MainSameWire(s, ok, sent, s');
    CarriedOn(s, s');
  }

  lemma SubmitStepCarries(s: State, ok: bool, sent: bool, s': State)
    requires Inv(s) && Kept(s.q) && Carried(s) && s.pc.Submit1? && s' == MainStep(s, ok, sent)
    ensures Carried(s')
  {
    SubmitCarries(s, s.pc.id);
  }

  lemma SendStepCarries(s: State, ok: bool, sent: bool, s': State)
    requires Carried(s) && s.pc.Submit2? && s' == MainStep(s, ok, sent)
    ensures Carried(s')
  {
    SendCarries(s, s.pc.id, ok, sent);
  }

  /** What others leave of what is carried */
  lemma OtherSame(s: State, a: Act, s': State)
    requires Allowed(s, a) && !a.Main? && s' == Step(s, a)
    ensures s'.log == s.log && s'.pc == s.pc && s'.q.h.submitted == s.q.h.submitted
    ensures s'.q.h.entered == s.q.h.entered || (a.Insert? && s.q.h.entered <= s'.q.h.entered)
  {}

  lemma OtherSameCommand(s: State, a: Act, s': State)
    requires Inv(s) && Allowed(s, a) && !a.Main? && s' == Step(s, a) && s.pc.Submit2?
    ensures CmdOf(s'.q, s.pc.id) == CmdOf(s.q, s.pc.id)
  {
    CurrentAlone(s.q, s.pc.id);
  }

  /** Steps of others on nodes of their own */
  lemma OtherCarries(s: State, a: Act, s': State)
    requires Inv(s) && Kept(s.q) && Carried(s) && Allowed(s, a) && !a.Main? && s' == Step(s, a)
    ensures Carried(s')
  {
    OtherSame(s, a, s');
    if s.pc.Submit2? { OtherSameCommand(s, a, s'); }
    EnteredMore(s.q, s'.q);
  }

  lemma EnteredMore(q: Queues, q': Queues)
    requires Kept(q) && q'.h.submitted == q.h.submitted && q.h.entered <= q'.h.entered
    ensures CommandsOf(q'.h.entered, q'.h.submitted) == CommandsOf(q.h.entered, q.h.submitted)
  {
    forall i | 0 <= i < |q.h.submitted| ensures q.h.submitted[i] < |q.h.entered| {
      var t := q.h.submitted[i];
      assert t in multiset(q.h.submitted) && t in multiset(q.h.left);
      assert t in q.h.left;
      var k :| 0 <= k < |q.h.left| && q.h.left[k] == t;
      assert Line(q)[k] == t;
    }
  }

  lemma StepCarries(s: State, a: Act, s': State)
    requires Inv(s) && Kept(s.q) && Carried(s) && Allowed(s, a) && s' == Step(s, a)
    ensures Carried(s')
  {
    if !a.Main? {
      OtherCarries(s, a, s');
    } else if s.pc.Submit1? {
      SubmitStepCarries(s, a.ok, a.sent, s');
    } else if s.pc.Submit2? {
      SendStepCarries(s, a.ok, a.sent, s');
    } else {
      ElsewhereCarries(s, a.ok, a.sent, s');
    }
  }

  lemma {:induction false} RunCarries(s: State, acts: seq<Act>)
    requires Inv(s) && Kept(s.q) && Carried(s) && Possible(s, acts)
    ensures Carried(Run(s, acts))
    decreases |acts|
  {
    if acts != [] {
      var s' := Step(s, acts[0]);
      StepCarries(s, acts[0], s');
      StepKept(s, acts[0], s'.q);
      StepKeepsInv(s, acts[0], s');
      RunCarries(s', acts[1..]);
    }
  }

  /** The commands handed to the card are the submitted ones, in the order of their submission, each
      once, with the command that was queued; only the last may not have been handed over yet. */
  lemma CardGetsWhatWasQueued(s: State, acts: seq<Act>)
    requires Reached(s, acts)
    ensures var queued := CommandsOf(s.q.h.entered, s.q.h.submitted);
      if s.pc.Submit2? then queued != [] && CommandsOn(s.log.wire) == queued[..|queued| - 1]
      else CommandsOn(s.log.wire) == queued
  {
    InitInv();
    InitKept();
    RunCarries(Init(), acts);
  }
}
