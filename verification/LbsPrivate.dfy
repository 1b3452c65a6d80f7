/**
 `struct lbs_private` and the functions that update it, in the order of the C statements. A method
 without actions is one region of the C code that runs without another actor in between; it is one
 step of the machine in LbsCommand. The others run through several regions and return the actions
 they took: left alone, `lbs_thread` and what it calls are runs of the machine.
 */
module LbsPrivate {
  import opened Wrappers
  import opened LbsCommand
  import opened LbsCommandLaws
  import opened LbsCommandRuns

  /** A new node is filled, its place chosen, and it is queued there. */
  function Enqueue(q: Queues, cmd: Command, waited: bool, ps: PsState): Queues
    requires q.free != []
  {
    InsertPending(ChoosePlace(Fill(q, cmd, waited), q.free[0], ps), q.free[0])
  }

  /** An undisturbed call of `__lbs_cmd_async` is a run of three actions. */
  lemma EnqueueRun(s: State, cmd: Command, waited: bool)
    requires CanIssue(s)
    ensures Ran(s, [Call(cmd, waited)] + [Place(s.q.free[0])] + [Insert(s.q.free[0])],
                s.(q := Enqueue(s.q, cmd, waited, s.power.psstate)))
  {
    var id := s.q.free[0];
    var s1 := s.(q := Fill(s.q, cmd, waited));
    RanStep(s, Call(cmd, waited), s1);
    var s2 := s1.(q := ChoosePlace(s1.q, id, s.power.psstate));
    RanMore(s, [Call(cmd, waited)], s1, Place(id), s2);
    RanMore(s, [Call(cmd, waited)] + [Place(id)], s2, Insert(id), s2.(q := InsertPending(s2.q, id)));
  }

  /** So is one from the main thread, between two steps of its own. */
  lemma IssueRun(s: State, cmd: Command, next: Next)
    requires s.pc == Issue(cmd, next) && CanIssue(s)
    ensures Ran(s, [GO] + [Place(s.q.free[0])] + [Insert(s.q.free[0])] + [GO],
                s.(q := Enqueue(s.q, cmd, false, s.power.psstate), pc := After(next)))
  {
    var id := s.q.free[0];
    var s1 := IssueStep(s, cmd, next);
    RanStep(s, GO, s1);
    var s2 := s1.(q := ChoosePlace(s1.q, id, s.power.psstate));
    RanMore(s, [GO], s1, Place(id), s2);
    var s3 := s2.(q := InsertPending(s2.q, id));
    RanMore(s, [GO] + [Place(id)], s2, Insert(id), s3);
    RanMore(s, [GO] + [Place(id)] + [Insert(id)], s3, GO, s3.(pc := After(next)));
  }

  lemma IssueFails(s: State, cmd: Command, next: Next)
    requires s.pc == Issue(cmd, next) && !CanIssue(s)
    ensures Ran(s, [GO], s.(pc := After(next)))
  {
    RanStep(s, GO, s.(pc := After(next)));
  }

  lemma StayedPut(s: State)
    ensures Went(s, [], s)
  {}

  /** What the bus driver does with a transfer: whether it succeeds, and whether it marks it first */
  datatype Outcome = Outcome(ok: bool, sent: bool)

  // ------------------------------------------------------------- what a round is for

  /** main.c:590-598 lets commands through. */
  predicate GateIsOpen(s: State) { !Asleep(s.power.psstate) && !s.power.deepSleep && Quiet(s) }

  /** The command at the head of the queue, if it may go to the card in this power state */
  function Sendable(s: State): Option<Command> {
    if s.q.cur == None && s.q.pending != [] && GateOpen(CmdOf(s.q, s.q.pending[0]), s.power.psstate)
    then Some(CmdOf(s.q, s.q.pending[0]))
    else None
  }

  /** A command is sent exactly in the power states the gate allows it in. */
  lemma SendIffGateOpen(cmd: Command, ps: PsState)
    ensures Consider(cmd, ps) == Send <==> GateOpen(cmd, ps)
  {}

  /** A call of `__lbs_cmd_async` gets a node. */
  predicate Issuable(s: State) { s.q.free != [] && (s.settings.autoDeepSleep || !s.power.deepSleep) }

  /** A node with this command has joined the queue, at its head or at its tail. */
  predicate Joined(before: seq<nat>, q: Queues, cmd: Command, front: bool) {
    |q.pending| == |before| + 1 &&
    if front then q.pending[1..] == before && CmdOf(q, q.pending[0]) == cmd
    else q.pending[..|before|] == before && CmdOf(q, q.pending[|before|]) == cmd
  }

  /** What one attempt to issue a command leaves of the queue */
  predicate Issued(s: State, q: Queues, cmd: Command, front: bool) {
    if Issuable(s) then Joined(s.q.pending, q, cmd, front) else q.pending == s.q.pending
  }

  /** `lbs_execute_next_command` seen from outside, at an open gate: with nothing to do, an idle card in
      FULL_POWER is sent to sleep; a command that may not go is either a PS_MODE command and dropped, or
      has to wait until EXIT_PS, which goes in front of it, has woken the card. */
  predicate Executed(s: State, s': State) {
    if s.q.pending == [] then
      if !s.settings.psCam && s.power.psstate == FullPower && s.settings.connected
      then Issued(s, s'.q, PsMode(EnterPs), false)
      else s'.q.pending == []
    else
      var head := s.q.pending[0];
      if GateOpen(CmdOf(s.q, head), s.power.psstate) then
        head !in s.q.pending[1..] ==> s'.q.pending == s.q.pending[1..]
      else if CmdOf(s.q, head).PsMode? then
        s'.q.pending == s.q.pending[1..] && s'.q.h.completed == s.q.h.completed + [TicketOf(s.q.nodes, head)]
      else
        Issued(s, s'.q, PsMode(ExitPs), true) && s'.q.h.completed == s.q.h.completed
  }

  /** What an event means, for each event and state; `ok` is the outcome of a confirmation to sleep. */
  predicate EventMeans(s: State, e: CardEvent, ok: bool, s': State) {
    var full := s.power.psstate == FullPower;
    match e
    case Disconnected =>
      !s'.settings.connected && (s.settings.connected ==> !s'.link.txPending) &&
      (if s.settings.connected && !full then Issued(s, s'.q, PsMode(ExitPs), true) else s'.q == s.q)
    case PsSleep =>
      if full || s.q.pending != [] then s' == s.(pc := EventLoop)
      else if Quiet(s) && NothingWaits(s.inbox) then
        s'.power.psstate == (if ok then Sleep else PreSleep) && WireGot(s.log.wire, s'.log.wire, ConfirmSleep)
      else s'.power.psstate == PreSleep && s'.log == s.log
    case PsAwake =>
      if full then s' == s.(pc := EventLoop)
      else s'.power.psstate == Awake &&
           (if s.power.needToWakeup then Issued(s, s'.q, PsMode(ExitPs), true) else s'.q == s.q)
    case HostAwake =>
      !s'.power.deepSleep && (if s.q.free != [] then Joined(s.q.pending, s'.q, WakeupConfirm, true) else s'.q == s.q)
    case DsAwake => s' == s.(pc := EventLoop, power := s.power.(deepSleep := false, wakeupDev := false))
    case OtherEvent => s' == s.(pc := EventLoop)
  }

  /** A sleep request that had to wait is confirmed once no command is under way, if nothing has come from
      the card by then, and dropped if the connection is gone. */
  predicate ConfirmedLate(s: State, ok: bool, power: Power, log: Log) {
    if s.power.psstate == PreSleep && Quiet(s) && s.settings.connected && NothingWaits(s.inbox) then
      power.psstate == (if ok then Sleep else PreSleep) && WireGot(s.log.wire, log.wire, ConfirmSleep)
    else
      log == s.log &&
      power.psstate == if s.power.psstate == PreSleep && Quiet(s) && !s.settings.connected then Awake
                       else s.power.psstate
  }

  /** This command, or none, was submitted and handed to the card. */
  predicate Handed(before: Log, after: Log, cmd: Option<Command>) {
    match cmd
    case None => after.submissions == before.submissions && after.wire == before.wire
    case Some(c) => after.submissions == before.submissions + 1 && WireGot(before.wire, after.wire, Cmd(c))
  }

  predicate WireGot(before: seq<Transfer>, after: seq<Transfer>, what: Payload) {
    |after| == |before| + 1 && after[..|before|] == before && after[|before|].what == what
  }

  function AtGate(gate: State): Option<Command> { if GateIsOpen(gate) then Sendable(gate) else None }

  lemma ExecutedFrom(s: State, s1: State, s': State)
    requires s1 == s.(pc := s1.pc) && Executed(s1, s')
    ensures Executed(s, s')
  {}

  lemma IdleExecuted(s: State, s1: State, s': State)
    requires s.pc == Exec && s1 == s.(pc := NextCommand(s)) && s.q.cur == None && !s1.pc.Peeked?
    requires if s1.pc.Issue? then Issued(s1, s'.q, PsMode(EnterPs), false) else s' == s1
    ensures Executed(s, s')
  {}

  /** The command at the head of the queue, once it has been considered */
  lemma ConsideredExecuted(s: State, id: nat, s1: State, s': State)
    requires s.pc == Peeked(id) && s.q.pending != [] && s.q.pending[0] == id && GateIsOpen(s)
    requires s1 == ConsiderCommand(s, id)
    requires s1.pc == DataStage ==> s' == s1
    requires s1.pc.Issue? ==>
      Issued(s1, s'.q, PsMode(ExitPs), s1.power.psstate != FullPower) && s'.q.h.completed == s1.q.h.completed
    requires s1.pc.Unlink? && s1.q.pending != [] && id == s1.q.pending[0] && id !in s1.q.pending[1..] ==>
      s'.q.pending == s1.q.pending[1..]
    ensures Executed(s, s')
  {
    SendIffGateOpen(CmdOf(s.q, id), s.power.psstate);
  }

  lemma EventIssued(s: State, e: CardEvent, s1: State, s': State, ok: bool)
    requires s1 == ProcessEvent(s, e) && s1.pc.Issue?
    requires s'.power == s1.power && s'.settings == s1.settings && s'.link == s1.link
    requires Issued(s1, s'.q, s1.pc.cmd,
                    s1.pc.cmd == WakeupConfirm || (s1.pc.cmd == PsMode(ExitPs) && s1.power.psstate != FullPower))
    requires !Issuable(s1) ==> s'.q == s1.q
    ensures EventMeans(s, e, ok, s')
  {}

  lemma EventConfirmed(s: State, e: CardEvent, s1: State, s': State, ok: bool)
    requires s1 == ProcessEvent(s, e) && s1.pc.Confirm1?
    requires if Quiet(s1) && NothingWaits(s1.inbox)
             then WireGot(s1.log.wire, s'.log.wire, ConfirmSleep) &&
                  s'.power.psstate == (if ok then Sleep else s1.power.psstate)
             else s'.log == s1.log && s'.power == s1.power
    ensures EventMeans(s, e, ok, s')
  {}

  lemma EventPassed(s: State, e: CardEvent, s': State, ok: bool)
    requires s' == ProcessEvent(s, e) && s'.pc == EventLoop
    ensures EventMeans(s, e, ok, s')
  {}

  /** A packet waits at the gate, and after the command, if one goes, the interface is free for it. */
  predicate FrameGoes(gate: State, bus: nat -> Outcome) {
    && !Asleep(gate.power.psstate) && !gate.power.deepSleep && gate.link.txPending
    && (if AtGate(gate).Some? then LeavesFree(gate, AtGate(gate).value, bus(|gate.log.wire|))
        else gate.link.dnld == ResReceived)
  }

  /** The transfer failed, or the command was DEEP_SLEEP and the driver wakes the device by itself. */
  predicate LeavesFree(s: State, cmd: Command, o: Outcome) {
    !o.ok || (cmd == DeepSleep && s.settings.autoDeepSleep)
  }

  /** The interface after this command was handed over, or none was */
  predicate LinkAfter(s: State, link: Link, cmd: Option<Command>, bus: nat -> Outcome) {
    && link.txPending == s.link.txPending
    && link.dnld ==
         match cmd
         case None => s.link.dnld
         case Some(c) => if LeavesFree(s, c, bus(|s.log.wire|)) then ResReceived else CmdSent
  }

  /** From the gate on: the command that was sendable there, and only that one, and then the packet that
      waited, if it could go. */
  predicate SentFrom(gate: State, log: Log, packet: bool) {
    var cmd, n := AtGate(gate), |gate.log.wire|;
    var m := n + One(cmd.Some?);
    && log.submissions == gate.log.submissions + One(cmd.Some?)
    && |log.wire| == m + One(packet) && log.wire[..n] == gate.log.wire
    && (cmd.Some? ==> log.wire[n].what == Cmd(cmd.value))
    && (packet ==> log.wire[m].what == Frame)
  }

  /** The response carries the current command's number, fits it and is not DEFER. */
  predicate IsFor(q: Queues, r: Option<Response>) {
    && r.Some? && q.cur.Some? && r.value.answers % 0x1_0000 == SeqnumOf(q, q.cur.value)
    && r.value.fits && !r.value.defer
  }

  lemma GateDecides(gate: State, s: State)
    requires gate.pc == Gate && s == gate.(pc := Onward(gate))
    ensures s.pc == Exec <==> GateIsOpen(gate)
    ensures s.pc == Exec || s.pc == DataStage || s.pc == Top
    ensures Sendable(s) == Sendable(gate) && Handed(gate.log, s.log, None)
  {}

  lemma ExecDecides(s: State, s': State)
    requires s.pc == Exec && s' == s.(pc := Onward(s))
    ensures s'.pc == Issue(PsMode(EnterPs), ToData) || s'.pc.Peeked? || s'.pc == DataStage
    ensures s'.pc.Peeked? ==> s.q.pending != [] && s'.pc.id == s.q.pending[0] && s.q.cur == None
    ensures !s'.pc.Peeked? ==> Sendable(s) == None
    ensures s'.q == s.q && s'.power == s.power && Handed(s.log, s'.log, None)
  {}

  lemma HandedThenSent(gate: State, mid: Log, log: Log, packet: bool)
    requires Handed(gate.log, mid, AtGate(gate)) && log.submissions == mid.submissions
    requires if packet then WireGot(mid.wire, log.wire, Frame) else log.wire == mid.wire
    ensures SentFrom(gate, log, packet)
  {
    assert mid.wire[..|gate.log.wire|] == gate.log.wire;
    assert log.wire[..|mid.wire|] == mid.wire;
    assert log.wire[..|gate.log.wire|] == log.wire[..|mid.wire|][..|gate.log.wire|];
  }

  /** What a failed transfer, and then the end of a submission, leave */
  lemma FailureLeaves(s: State, id: nat, cmd: Command)
    ensures var s' := FailCommand(s, id, cmd);
      && s'.q.cur == None && (id !in s.q.pending ==> s'.q.pending == s.q.pending)
      && s'.inbox == s.inbox && s'.log == s.log && s'.power == s.power && s'.settings == s.settings
      && s'.link == s.link.(dnld := ResReceived)
  {
    if id !in s.q.pending { RemoveAbsent(s.q.pending, id); }
  }

  lemma SubmittedLeaves(s: State, id: nat, cmd: Command)
    ensures var s' := Submitted(s, id, cmd);
      && s'.q.cur == (if cmd == DeepSleep then None else s.q.cur)
      && (id !in s.q.pending ==> s'.q.pending == s.q.pending)
      && s'.inbox == s.inbox && s'.log == s.log && s'.power.deepSleep == (s.power.deepSleep || cmd == DeepSleep)
      && s'.link == s.link.(dnld := if cmd == DeepSleep && s.settings.autoDeepSleep then ResReceived else s.link.dnld)
  {
    if id !in s.q.pending { RemoveAbsent(s.q.pending, id); }
  }

  class Private {
    var cmdfreeq: seq<nat>
    var cmdpendingq: seq<nat>
    var curCmd: Option<nat>
    var nodes: map<nat, Node>
    var power: Power
    var settings: Settings
    var link: Link
    var inbox: Inbox
    var pc: Pc             // where the main thread is
    var filling: set<nat>  // nodes that are being filled and queued
    // who else holds a node that is on no list, and the history
    ghost var inHand: Option<nat>
    ghost var done: set<nat>
    var h: History
    var log: Log

    ghost function Q(): Queues
      reads this
    {
      Queues(cmdfreeq, cmdpendingq, curCmd, nodes, filling, inHand, done, h)
    }

    ghost function View(): State
      reads this
    {
      State(Q(), power, settings, link, inbox, pc, log)
    }

    constructor ()
      ensures View() == Init()
    {
      cmdfreeq, cmdpendingq, curCmd := [0, 1, 2, 3, 4, 5, 6, 7, 8, 9], [], None;
      nodes := map id | id in ALL_NODES :: CLEAN;
      power, settings := Power(FullPower, false, false, false), Settings(true, false, false, false, false);
      link, inbox := Link(ResReceived, 0, false, false), Inbox(None, None, false, []);
      filling, inHand, done, h, pc, log := {}, None, {}, History([], [], [], []), Top, Log(0, [], []);
    }

    // ------------------------------------------------------------------ the lists

    /** `__lbs_cleanup_and_insert_cmd` */
    method CleanupAndInsertCmd(id: nat)
      modifies `nodes, `cmdfreeq
      ensures Q() == CleanUpAndInsert(old(Q()), id)
    {
      nodes := nodes[id := CLEAN];
      cmdfreeq := cmdfreeq + [id];
    }

    /** The history of a node that is taken off its list */
    method NoteDeparture(id: nat)
      modifies `h
      ensures h == Departed(old(Q()), id)
    {
      if id in cmdpendingq { h := h.(left := h.left + [TicketOf(nodes, id)]); }
    }

    /** `__lbs_complete_command` */
    method CompleteCommand(id: nat)
      modifies `cmdpendingq, `cmdfreeq, `nodes, `curCmd, `done, `h
      ensures Q() == Complete(old(Q()), id)
    {
      NoteDeparture(id);
      h := h.(completed := h.completed + [TicketOf(nodes, id)]);
      cmdpendingq := Remove(cmdpendingq, id);
      cmdfreeq := Remove(cmdfreeq, id);
      if id in nodes && nodes[id].waited {
        done := done + {id};
        assert cmdfreeq == cmdfreeq + [];
      } else {
        CleanupAndInsertCmd(id);
      }
      curCmd := None;
    }

    /** `lbs_get_free_cmd_node` and the filling of the node by `__lbs_cmd_async` */
    method GetFreeCmdNode(cmd: Command, waited: bool) returns (node: Option<nat>)
      modifies `cmdfreeq, `nodes, `filling
      ensures node == if old(cmdfreeq) == [] then None else Some(old(cmdfreeq)[0])
      ensures Q() == if old(cmdfreeq) == [] then old(Q()) else Fill(old(Q()), cmd, waited)
    {
      if cmdfreeq == [] { return None; }
      var id := cmdfreeq[0];
      cmdfreeq := cmdfreeq[1..];
      nodes := nodes[id := Node(cmd, waited, 0, false, false, 0)];
      filling := filling + {id};
      return Some(id);
    }

    /** `lbs_queue_cmd` up to taking the lock */
    method ChooseQueueEnd(id: nat)
      requires id in nodes
      modifies `nodes
      ensures Q() == ChoosePlace(old(Q()), id, power.psstate)
    {
      var front := false;
      if nodes[id].cmd == PsMode(ExitPs) {
        if power.psstate != FullPower { front := true; }
      }
      if nodes[id].cmd == WakeupConfirm { front := true; }
      nodes := nodes[id := nodes[id].(placed := true, front := front)];
    }

    /** `lbs_queue_cmd` under the lock */
    method QueueCmd(id: nat)
      requires id in nodes && id in filling && nodes[id].placed
      modifies `cmdpendingq, `nodes, `filling, `h
      ensures Q() == InsertPending(old(Q()), id)
    {
      filling := filling - {id};
      if !nodes[id].front {
        cmdpendingq := cmdpendingq + [id];
      } else {
        cmdpendingq := [id] + cmdpendingq;
      }
      nodes := nodes[id := nodes[id].(ticket := |h.entered|)];
      h := h.(entered := h.entered + [Entry(nodes[id].cmd, nodes[id].front)]);
    }

    // -------------------------------------------------------------- interrupts and timers

    /** `lbs_queue_event` */
    method QueueCardEvent(e: CardEvent)
      modifies this
      ensures View() == Step(old(View()), QueueEvent(e))
    {
      if power.psstate == Sleep { power := power.(psstate := Awake); }
      inbox := inbox.(events := inbox.events + [e]);
    }

    /** The card's driver fills the spare buffer and calls `lbs_notify_command_response`. */
    method NotifyCommandResponse(r: Response)
      requires Allowed(View(), NotifyResponse(r))
      modifies this
      ensures View() == Step(old(View()), NotifyResponse(r))
    {
      inbox := Put(inbox, !inbox.respIdx, Some(r));
      if power.psstate == Sleep { power := power.(psstate := Awake); }
      inbox := inbox.(respIdx := !inbox.respIdx);
    }

    /** `lbs_host_to_card_done` */
    method TransferDone()
      modifies `link
      ensures View() == Step(old(View()), HostToCardDone)
    {
      link := link.(dnld := ResReceived);
    }

    /** `lbs_cmd_timeout_handler` */
    method CmdTimeoutHandler()
      modifies `link
      ensures View() == Step(old(View()), CmdTimeout)
    {
      if curCmd == None { return; }
      link := link.(cmdTimedOut := true);
      if link.dnld == CmdSent { link := link.(dnld := ResReceived); }
    }

    /** The end of `__lbs_cmd`: the caller is awake again and returns its node. */
    method ReturnNode(id: nat)
      requires id in done
      modifies `done, `nodes, `cmdfreeq
      ensures View() == Step(old(View()), CleanUp(id))
    {
      done := done - {id};
      CleanupAndInsertCmd(id);
    }

    // ------------------------------------------------------ lbs_process_command_response

    /** The checks at the head of `lbs_process_command_response` */
    method IsAnswer(r: Response) returns (accepted: bool)
      ensures accepted == Accepted(Q(), r)
    {
      if curCmd == None { return false; }
      var expected := if curCmd.value in nodes then nodes[curCmd.value].seqnum else 0;
      if r.answers % 0x1_0000 != expected { return false; }
      if !r.fits { return false; }
      if r.defer { return false; }
      return true;
    }

    /** The answer to a PS_MODE command: cmdresp.c:128-181. Says whether EXIT_PS has to be queued. */
    method PsModeResponse(r: Response) returns (wake: bool)
      modifies `power, `settings
      ensures wake == MustWake(old(settings), r)
      ensures power == PsAfter(old(power), r) && settings == CamAfter(old(settings), r)
    {
      wake := false;
      if r.ps == None { return; }
      if !r.ok {
        if settings.monitor && r.ps.value == EnterPs { settings := settings.(psCam := true); }
      } else if r.ps.value == EnterPs {
        power := power.(needToWakeup := false, psstate := Awake);
        wake := !settings.connected;
      } else if r.ps.value == ExitPs {
        power := power.(needToWakeup := false, psstate := FullPower);
      }
    }

    /** An answered command is completed at once, unless EXIT_PS has to be queued or its callback
        called first. */
    method Dispose(idx: bool, wake: bool, callback: bool)
      requires curCmd.Some?
      modifies `cmdpendingq, `cmdfreeq, `nodes, `curCmd, `done, `h, `pc
      ensures Q() == CompleteIf(old(Q()), old(curCmd), !wake && !callback)
      ensures pc == if wake then Issue(PsMode(ExitPs), ToAnswer(idx))
                    else if callback then RespCallback(idx) else RespClear(idx)
    {
      pc := RespClear(idx);
      if wake {
        pc := Issue(PsMode(ExitPs), ToAnswer(idx));
      } else if callback {
        pc := RespCallback(idx);
      } else {
        CompleteCommand(curCmd.value);
      }
    }

    /** The timer of the command is stopped. */
    method NoteAnswer(r: Response)
      modifies `link, `log
      ensures link == old(link).(cmdTimedOut := false)
      ensures log == old(log).(matches := old(log).matches + [Match(old(log).submissions, r.answers, r.ps, r.ok)])
    {
      link := link.(cmdTimedOut := false);
      log := log.(matches := log.matches + [Match(log.submissions, r.answers, r.ps, r.ok)]);
    }

    /** `lbs_process_command_response` from stopping the timer to releasing the lock */
    method AcceptResponse(idx: bool, r: Response)
      requires curCmd.Some?
      modifies this
      ensures View() == TakeAnswer(old(View()), idx, r)
    {
      NoteAnswer(r);
      var wake := PsModeResponse(r);
      Dispose(idx, wake, Callback(r));
    }

    /** `lbs_process_command_response` up to the first release of the lock */
    method TakeResponse(idx: bool)
      modifies this
      ensures View() == StartResponse(old(View()), idx)
    {
      if At(inbox, idx) == None {
        pc := RespClear(idx);
        return;
      }
      var r := At(inbox, idx).value;
      var accepted := IsAnswer(r);
      if accepted {
        AcceptResponse(idx, r);
      } else {
        pc := RespClear(idx);
      }
    }

    /** Completion of the current command after the lock was released: cmdresp.c:175 and 203-216,
        and the timeout of main.c:548-556. */
    method CompleteCurrent(condition: bool, next: Pc)
      modifies this
      ensures View() == FinishCurrent(old(View()), condition, next)
    {
      if condition && curCmd.Some? { CompleteCommand(curCmd.value); }
      pc := next;
    }

    /** main.c:519-521 */
    method DropResponse(idx: bool)
      modifies `inbox, `pc
      ensures View() == ClearResponse(old(View()), idx)
    {
      inbox := Put(inbox, idx, None);
      pc := EventLoop;
    }

    // ------------------------------------------------------------------ lbs_process_event

    /** `lbs_process_event` */
    method HandleCardEvent(e: CardEvent)
      modifies `power, `settings, `link, `pc
      ensures View() == ProcessEvent(old(View()), e)
    {
      pc := EventLoop;
      match e
      case Disconnected =>
        if !settings.connected { return; }
        link := link.(txPending := false);
        settings := settings.(connected := false);
        if power.psstate != FullPower { pc := Issue(PsMode(ExitPs), ToEvents); }
      case PsSleep =>
        if power.psstate == FullPower || cmdpendingq != [] { return; }
        power := power.(psstate := PreSleep);
        pc := Confirm1(ToEvents);
      case PsAwake =>
        if power.psstate == FullPower { return; }
        power := power.(psstate := Awake);
        if power.needToWakeup { pc := Issue(PsMode(ExitPs), ToEvents); }
      case HostAwake =>
        power := power.(deepSleep := false);
        pc := Issue(WakeupConfirm, ToEvents);
      case DsAwake =>
        power := power.(deepSleep := false, wakeupDev := false);
      case OtherEvent =>
    }

    /** `kfifo_out`: main.c:526-531 */
    method NextEvent()
      modifies `inbox, `pc
      ensures View() == TakeEvent(old(View()))
    {
      if inbox.events == [] {
        pc := AfterEvents;
      } else {
        pc := HandleEvent(inbox.events[0]);
        inbox := inbox.(events := inbox.events[1..]);
      }
    }

    // -------------------------------------------------------------- lbs_ps_confirm_sleep

    /** `lbs_ps_confirm_sleep`: may the card be told to sleep? */
    method AllowedToSleep() returns (allowed: bool)
      ensures allowed == (Quiet(View()) && NothingWaits(inbox))
    {
      allowed := true;
      if link.dnld != ResReceived { allowed := false; }
      if curCmd != None { allowed := false; }
      if inbox.events != [] || At(inbox, inbox.respIdx) != None { allowed := false; }
    }

    /** `lbs_send_confirmsleep`: the transfer */
    method SendConfirmSleep(next: Next, ok: bool, sent: bool)
      modifies `link, `pc, `log
      ensures View() == SendConfirm(old(View()), next, ok, sent)
    {
      log := log.(wire := log.wire + [Transfer(ConfirmSleep, power.psstate, link.dnld)]);
      if ok || sent { link := link.(dnld := CmdSent); }
      pc := if ok then Confirm3(next) else After(next);
    }

    /** `lbs_send_confirmsleep` under the lock */
    method MaySleepNow(next: Next)
      modifies `link, `power, `pc
      ensures View() == FallAsleep(old(View()), next)
    {
      link := link.(dnld := ResReceived);
      if inbox.events == [] && At(inbox, inbox.respIdx) == None { power := power.(psstate := Sleep); }
      pc := After(next);
    }

    // ----------------------------------------------------------- lbs_execute_next_command

    /** `lbs_execute_next_command` under the lock, and what it does with an empty queue */
    method ChooseCommand()
      modifies `pc
      ensures pc == NextCommand(old(View()))
    {
      if curCmd != None {
        pc := DataStage;
      } else if cmdpendingq != [] {
        pc := Peeked(cmdpendingq[0]);
      } else if !settings.psCam && power.psstate == FullPower && settings.connected {
        pc := Issue(PsMode(EnterPs), ToData);
      } else {
        pc := DataStage;
      }
    }

    /** cmd.c:1255-1334: what becomes of the command at the head of the queue. */
    method Judge(cmd: Command) returns (v: Verdict, wake: bool)
      ensures v == Consider(cmd, power.psstate) && wake == NeedsWakeup(cmd, power.psstate)
    {
      if cmd == Rssi || cmd == HostSleepCfg {
        if power.psstate == Sleep || power.psstate == PreSleep { return Wait, false; }
      } else if power.psstate != FullPower {
        if !cmd.PsMode? {
          if power.psstate == Sleep || power.psstate == PreSleep { return Wait, true; }
          return WakeFirst, false;
        }
        if cmd.action != ExitPs { return Ignore, false; }
        if power.psstate == Sleep || power.psstate == PreSleep { return Ignore, true; }
      }
      return Send, false;
    }

    method ConsiderNext(id: nat)
      modifies this
      ensures View() == ConsiderCommand(old(View()), id)
    {
      var cmd := if id in nodes then nodes[id].cmd else Plain(0);
      var v, wake := Judge(cmd);
      if v == Ignore { CompleteCommand(id); }
      if wake { power := power.(needToWakeup := true); }
      pc := match v
            case Send => Unlink(id)
            case WakeFirst => Issue(PsMode(ExitPs), ToData)
            case _ => DataStage;
    }

    /** cmd.c:1335-1337 */
    method UnlinkNode(id: nat)
      modifies `cmdpendingq, `h, `inHand, `pc
      ensures View() == UnlinkStep(old(View()), id)
    {
      NoteDeparture(id);
      cmdpendingq := Remove(cmdpendingq, id);
      inHand := Some(id);
      pc := Submit1(id);
    }

    // ----------------------------------------------------------------- lbs_submit_command

    /** `lbs_submit_command` under the lock */
    method NumberAndSetCurrent(id: nat)
      requires id in nodes
      modifies `link, `nodes, `curCmd, `inHand, `h, `log, `pc
      ensures Q() == MakeCurrent(old(Q()), id, NextSeqnum(old(link).seqnum))
      ensures link == old(link).(seqnum := NextSeqnum(old(link).seqnum)) && pc == Submit2(id)
      ensures log == old(log).(submissions := old(log).submissions + 1)
    {
      link := link.(seqnum := NextSeqnum(link.seqnum));
      nodes := nodes[id := nodes[id].(seqnum := link.seqnum)];
      h := h.(submitted := h.submitted + [nodes[id].ticket]);
      curCmd := Some(id);
      inHand := None;
      log := log.(submissions := log.submissions + 1);
      pc := Submit2(id);
    }

    /** `lbs_submit_command`: the transfer */
    method HandToCard(id: nat, ok: bool, sent: bool)
      modifies `link, `pc, `log
      ensures View() == SendCommand(old(View()), id, ok, sent)
    {
      var cmd := if id in nodes then nodes[id].cmd else Plain(0);
      log := log.(wire := log.wire + [Transfer(Cmd(cmd), power.psstate, link.dnld)]);
      if ok || sent { link := link.(dnld := CmdSent); }
      pc := if ok then Submit3(id, cmd) else SubmitFail(id, cmd);
    }

    /** cmd.c:962-968 */
    method ReportFailure(id: nat, cmd: Command)
      modifies this
      ensures View() == FailCommand(old(View()), id, cmd)
    {
      link := link.(dnld := ResReceived);
      CompleteCommand(id);
      pc := Submit3(id, cmd);
    }

    /** cmd.c:971-975 */
    method NoteDeepSleep()
      modifies `power, `link
      ensures power == old(power).(deepSleep := true, wakeupDev := old(power).wakeupDev || settings.autoDeepSleep)
      ensures link == if settings.autoDeepSleep then old(link).(dnld := ResReceived) else old(link)
    {
      if settings.autoDeepSleep {
        power := power.(wakeupDev := true);
        link := link.(dnld := ResReceived);
      }
      power := power.(deepSleep := true);
    }

    /** cmd.c:970-980 */
    method FinishSubmission(id: nat, cmd: Command)
      modifies this
      ensures View() == Submitted(old(View()), id, cmd)
    {
      pc := DataStage;
      if cmd == DeepSleep {
        NoteDeepSleep();
        CompleteCommand(id);
      }
    }

    // ------------------------------------------------------------------------ lbs_thread

    /** main.c:601-624 */
    method SendPacket(ok: bool)
      modifies `link, `pc, `log
      ensures View() == SendData(old(View()), ok)
    {
      if link.dnld == ResReceived && link.txPending {
        log := log.(wire := log.wire + [Transfer(Frame, power.psstate, link.dnld)]);
        link := link.(dnld := if ok then DataSent else ResReceived, txPending := false);
      }
      pc := Top;
    }

    /** main.c:560-563 */
    method ForgetTimeout()
      modifies `link, `pc
      ensures View() == ClearTimeout(old(View()))
    {
      link := link.(cmdTimedOut := false);
      pc := if settings.fwReady then PreSleepCheck else Top;
    }

    /** main.c:565-585 */
    method ConfirmIfConnected()
      modifies `power, `pc
      ensures View() == CheckPreSleep(old(View()))
    {
      pc := Gate;
      if power.psstate == PreSleep && link.dnld == ResReceived && curCmd == None {
        if settings.connected {
          pc := Confirm1(ToGate);
        } else {
          power := power.(psstate := Awake);
        }
      }
    }

    // --------------------------------------------------------- the main thread, step by step

    /** The points where the main thread only looks at something and moves on */
    method LookAround()
      modifies `pc
      ensures View() == old(View()).(pc := Onward(old(View())))
    {
      match pc
      case Top => pc := if At(inbox, inbox.respIdx) != None then RespStart(inbox.respIdx) else EventLoop;
      case Confirm1(next) =>
        var allowed := AllowedToSleep();
        pc := if allowed then Confirm2(next) else After(next);
      case AwaitQueued(id, next) => if id !in filling { pc := After(next); }
      case AfterEvents => pc := if power.wakeupDev then Top else TimeoutCheck;
      case Gate =>
        if power.psstate == Sleep || power.psstate == PreSleep || power.deepSleep {
          pc := Top;
        } else {
          pc := if link.dnld == ResReceived && curCmd == None then Exec else DataStage;
        }
      case Exec => ChooseCommand();
      case _ =>
    }

    /** `__lbs_cmd_async` from the main thread up to filling the node */
    method IssueCommand(cmd: Command, next: Next) returns (node: Option<nat>)
      modifies `cmdfreeq, `nodes, `filling, `pc
      ensures View() == IssueStep(old(View()), cmd, next)
      ensures node == if CanIssue(old(View())) then Some(old(cmdfreeq)[0]) else None
    {
      pc := After(next);
      if !settings.autoDeepSleep {
        if power.deepSleep { return None; }
      }
      node := GetFreeCmdNode(cmd, false);
      if node != None { pc := AwaitQueued(node.value, next); }
    }

    method AnswerPart()
      requires Answering(pc)
      modifies this
      ensures View() == AnswerStep(old(View()))
    {
      match pc
      case RespStart(idx) => TakeResponse(idx);
      case RespCallback(idx) => CompleteCurrent(true, RespClear(idx));
      case RespAnswer(idx) => CompleteCurrent(true, RespClear(idx));
      case RespClear(idx) => DropResponse(idx);
    }

    method DetourPart(ok: bool, sent: bool)
      requires Detouring(pc)
      modifies this
      ensures View() == DetourStep(old(View()), ok, sent)
    {
      match pc
      case HandleEvent(e) => HandleCardEvent(e);
      case Confirm2(next) => SendConfirmSleep(next, ok, sent);
      case Confirm3(next) => MaySleepNow(next);
      case Issue(cmd, next) => var _ := IssueCommand(cmd, next);
    }

    method CheckPart()
      requires Checking(pc)
      modifies this
      ensures View() == CheckStep(old(View()))
    {
      match pc
      case EventLoop => NextEvent();
      case TimeoutCheck => CompleteCurrent(link.cmdTimedOut, TimeoutClear);
      case TimeoutClear => ForgetTimeout();
      case PreSleepCheck => ConfirmIfConnected();
    }

    method ChoosePart()
      requires Choosing(pc)
      modifies this
      ensures View() == ChooseStep(old(View()))
    {
      match pc
      case Peeked(id) => ConsiderNext(id);
      case Unlink(id) => UnlinkNode(id);
      case Submit1(id) => if id in nodes { NumberAndSetCurrent(id); }
    }

    method SendPart(ok: bool, sent: bool)
      requires Sending(pc)
      modifies this
      ensures View() == SendStep(old(View()), ok, sent)
    {
      match pc
      case Submit2(id) => HandToCard(id, ok, sent);
      case SubmitFail(id, cmd) => ReportFailure(id, cmd);
      case Submit3(id, cmd) => FinishSubmission(id, cmd);
      case DataStage => SendPacket(ok);
    }

    /** One region of the main thread, whichever it is at: the step of the machine. */
    method MainThread(ok: bool, sent: bool)
      modifies this
      ensures View() == MainStep(old(View()), ok, sent)
    {
      if Answering(pc) {
        AnswerPart();
      } else if Detouring(pc) {
        DetourPart(ok, sent);
      } else if Checking(pc) {
        CheckPart();
      } else if Choosing(pc) {
        ChoosePart();
      } else if Sending(pc) {
        SendPart(ok, sent);
      } else {
        LookAround();
      }
    }

    /** `__lbs_cmd_async` called by anyone else, left alone */
    method CmdAsync(cmd: Command, waited: bool) returns (node: Option<nat>, ghost acts: seq<Act>)
      modifies `cmdfreeq, `cmdpendingq, `nodes, `filling, `h
      ensures node == if Issuable(old(View())) then Some(old(cmdfreeq)[0]) else None
      ensures node == None ==> View() == old(View())
      ensures node != None ==> Ran(old(View()), acts, View()) && node.value !in filling
      ensures node != None ==> node.value in cmdpendingq && node.value in nodes
      ensures node != None ==> nodes[node.value].cmd == cmd && nodes[node.value].waited == waited
      ensures node != None ==>
        cmdpendingq == if cmd == WakeupConfirm || (cmd == PsMode(ExitPs) && power.psstate != FullPower)
                       then [node.value] + old(cmdpendingq) else old(cmdpendingq) + [node.value]
    {
      acts := [];
      ghost var s := View();
      if !settings.autoDeepSleep {
        if power.deepSleep { return None, acts; }
      }
      node := GetFreeCmdNode(cmd, waited);
      if node == None { return; }
      ChooseQueueEnd(node.value);
      QueueCmd(node.value);
      EnqueueRun(s, cmd, waited);
      acts := [Call(cmd, waited)] + [Place(node.value)] + [Insert(node.value)];
    }

    // ------------------------------------------------------- the main thread, left alone

    /** `lbs_cmd_async` called by the main thread */
    method CmdAsyncFromMain(cmd: Command, next: Next) returns (ghost acts: seq<Act>)
      requires pc == Issue(cmd, next)
      modifies `cmdfreeq, `cmdpendingq, `nodes, `filling, `h, `pc
      ensures Ran(old(View()), acts, View()) && pc == After(next)
      ensures Issued(old(View()), Q(), cmd,
                     cmd == WakeupConfirm || (cmd == PsMode(ExitPs) && power.psstate != FullPower))
      ensures !Issuable(old(View())) ==> Q() == old(Q())
      ensures h.completed == old(h.completed)
    {
      ghost var s := View();
      var node := IssueCommand(cmd, next);
      if node == None {
        IssueFails(s, cmd, next);
        acts := [GO];
        return;
      }
      ChooseQueueEnd(node.value);
      QueueCmd(node.value);
      pc := After(next);
      IssueRun(s, cmd, next);
      acts := [GO] + [Place(node.value)] + [Insert(node.value)] + [GO];
    }

    /** `lbs_ps_confirm_sleep` and `lbs_send_confirmsleep` */
    method PsConfirmSleep(next: Next, bus: nat -> Outcome) returns (ghost acts: seq<Act>)
      requires pc == Confirm1(next)
      modifies `link, `power, `log, `pc
      ensures Ran(old(View()), acts, View()) && pc == After(next)
      ensures log.submissions == old(log.submissions)
      ensures power == old(power).(psstate := power.psstate)
      ensures if Quiet(old(View())) && NothingWaits(inbox)
              then WireGot(old(log.wire), log.wire, ConfirmSleep) &&
                   power.psstate == (if bus(|old(log.wire)|).ok then Sleep else old(power.psstate))
              else log == old(log) && power == old(power) && link == old(link)
    {
      ghost var s0 := View();
      LookAround();
      RanStep(s0, GO, View());
      acts := [GO];
      if pc != Confirm2(next) { return; }
      ghost var s1 := View();
      var o := bus(|log.wire|);
      SendConfirmSleep(next, o.ok, o.sent);
      RanMore(s0, acts, s1, Main(o.ok, o.sent), View());
      acts := acts + [Main(o.ok, o.sent)];
      if !o.ok { return; }
      ghost var s2 := View();
      MaySleepNow(next);
      RanMore(s0, acts, s2, GO, View());
      acts := acts + [GO];
    }

    /** `lbs_process_command_response` */
    method ProcessCommandResponse(idx: bool) returns (ghost acts: seq<Act>)
      requires pc == RespStart(idx)
      modifies this
      ensures Ran(old(View()), acts, View()) && pc == RespClear(idx) && inbox == old(inbox)
      ensures log.submissions == old(log.submissions)
      ensures if IsFor(old(Q()), At(inbox, idx)) then curCmd == None else Q() == old(Q()) && log == old(log)
    {
      ghost var s0 := View();
      TakeResponse(idx);
      RanStep(s0, GO, View());
      acts := [GO];
      ghost var s1 := View();
      if pc == Issue(PsMode(ExitPs), ToAnswer(idx)) {
        ghost var more := WakeAndComplete(idx);
        RanThen(s0, acts, s1, more, View());
        acts := acts + more;
      } else if pc == RespCallback(idx) {
        CompleteCurrent(true, RespClear(idx));
        RanMore(s0, acts, s1, GO, View());
        acts := acts + [GO];
      }
    }

    /** cmdresp.c:160-181: EXIT_PS is queued before the answered ENTER_PS is completed. */
    method WakeAndComplete(idx: bool) returns (ghost acts: seq<Act>)
      requires pc == Issue(PsMode(ExitPs), ToAnswer(idx))
      modifies this
      ensures Ran(old(View()), acts, View()) && pc == RespClear(idx) && inbox == old(inbox)
      ensures log.submissions == old(log.submissions) && curCmd == None
    {
      ghost var s0 := View();
      acts := CmdAsyncFromMain(PsMode(ExitPs), ToAnswer(idx));
      ghost var s1 := View();
      CompleteCurrent(true, RespClear(idx));
      RanMore(s0, acts, s1, GO, View());
      acts := acts + [GO];
    }

    /** `lbs_process_event` with what it calls */
    method ProcessCardEvent(e: CardEvent, bus: nat -> Outcome) returns (ghost acts: seq<Act>)
      requires pc == HandleEvent(e)
      modifies this
      ensures Ran(old(View()), acts, View()) && pc == EventLoop && inbox == old(inbox)
      ensures log.submissions == old(log.submissions)
      ensures EventMeans(old(View()), e, bus(|old(log.wire)|).ok, View())
    {
      ghost var s0 := View();
      HandleCardEvent(e);
      RanStep(s0, GO, View());
      ghost var s1 := View();
      ghost var more := FollowUp(bus);
      RanThen(s0, [GO], s1, more, View());
      acts := [GO] + more;
      if s1.pc.Issue? {
        EventIssued(s0, e, s1, View(), bus(|s0.log.wire|).ok);
      } else if s1.pc.Confirm1? {
        EventConfirmed(s0, e, s1, View(), bus(|s0.log.wire|).ok);
      } else {
        EventPassed(s0, e, View(), bus(|s0.log.wire|).ok);
      }
    }

    /** The command or the confirmation that an event leads to */
    method FollowUp(bus: nat -> Outcome) returns (ghost acts: seq<Act>)
      requires pc == EventLoop || pc == Confirm1(ToEvents) || (pc.Issue? && pc.next == ToEvents)
      modifies this
      ensures Ran(old(View()), acts, View()) && pc == EventLoop && inbox == old(inbox)
      ensures log.submissions == old(log.submissions)
      ensures old(pc).Issue? ==>
        && power == old(power) && settings == old(settings) && link == old(link)
        && Issued(old(View()), Q(), old(pc).cmd,
                  old(pc).cmd == WakeupConfirm || (old(pc).cmd == PsMode(ExitPs) && power.psstate != FullPower))
        && (!Issuable(old(View())) ==> Q() == old(Q()))
      ensures old(pc).Confirm1? ==>
        if Quiet(old(View())) && NothingWaits(inbox)
        then WireGot(old(log.wire), log.wire, ConfirmSleep) &&
             power.psstate == (if bus(|old(log.wire)|).ok then Sleep else old(power.psstate))
        else log == old(log) && power == old(power)
      ensures old(pc) == EventLoop ==> View() == old(View())
    {
      ghost var s0 := View();
      if pc.Issue? {
        acts := CmdAsyncFromMain(pc.cmd, ToEvents);
      } else if pc.Confirm1? {
        acts := PsConfirmSleep(ToEvents, bus);
      } else {
        acts := [];
        assert Possible(s0, acts);
      }
    }

    /** The event loop of `lbs_thread`: main.c:524-537 */
    method DrainEvents(bus: nat -> Outcome) returns (ghost acts: seq<Act>)
      requires pc == EventLoop
      modifies this
      ensures Ran(old(View()), acts, View()) && pc == AfterEvents && inbox == old(inbox).(events := [])
      ensures log.submissions == old(log.submissions)
    {
      acts := [];
      ghost var s0 := View();
      while inbox.events != []
        invariant Ran(s0, acts, View()) && pc == EventLoop && inbox == old(inbox).(events := inbox.events)
        invariant log.submissions == old(log.submissions)
        decreases |inbox.events|
      {
        ghost var s1 := View();
        var e := inbox.events[0];
        NextEvent();
        RanMore(s0, acts, s1, GO, View());
        acts := acts + [GO];
        ghost var s2 := View();
        ghost var more := ProcessCardEvent(e, bus);
        RanThen(s0, acts, s2, more, View());
        acts := acts + more;
      }
      ghost var s3 := View();
      NextEvent();
      RanMore(s0, acts, s3, GO, View());
      acts := acts + [GO];
    }

    /** The transfer of `lbs_submit_command`, and its failure */
    method TransferCommand(id: nat, cmd: Command, bus: nat -> Outcome) returns (ghost acts: seq<Act>)
      requires pc == Submit2(id) && id in nodes && nodes[id].cmd == cmd
      modifies this
      ensures Went(old(View()), acts, View()) && pc == Submit3(id, cmd) && inbox == old(inbox)
      ensures log.submissions == old(log.submissions) && WireGot(old(log.wire), log.wire, Cmd(cmd))
      ensures power == old(power) && settings == old(settings)
      ensures link == old(link).(dnld := if bus(|old(log.wire)|).ok then CmdSent else ResReceived)
      ensures curCmd == if bus(|old(log.wire)|).ok then old(curCmd) else None
      ensures id !in old(cmdpendingq) ==> cmdpendingq == old(cmdpendingq)
    {
      ghost var s0 := View();
      var o := bus(|log.wire|);
      HandToCard(id, o.ok, o.sent);
      WentStep(s0, Main(o.ok, o.sent), View());
      acts := [Main(o.ok, o.sent)];
      if o.ok { return; }
      ghost var s1 := View();
      ReportFailure(id, cmd);
      FailureLeaves(s1, id, cmd);
      WentMore(s0, acts, s1, GO, View());
      acts := acts + [GO];
    }

    /** `lbs_submit_command` up to what follows the transfer */
    method NumberAndTransfer(id: nat, bus: nat -> Outcome) returns (cmd: Command, ghost acts: seq<Act>)
      requires pc == Submit1(id) && id in nodes
      modifies this
      ensures Went(old(View()), acts, View()) && pc == Submit3(id, cmd) && inbox == old(inbox)
      ensures cmd == old(nodes)[id].cmd && Handed(old(log), log, Some(cmd))
      ensures power == old(power) && settings == old(settings) && link.txPending == old(link).txPending
      ensures link.dnld == if bus(|old(log.wire)|).ok then CmdSent else ResReceived
      ensures curCmd == if bus(|old(log.wire)|).ok then Some(id) else None
      ensures id !in old(cmdpendingq) ==> cmdpendingq == old(cmdpendingq)
    {
      ghost var s0 := View();
      NumberAndSetCurrent(id);
      WentStep(s0, GO, View());
      ghost var s1 := View();
      cmd := nodes[id].cmd;
      ghost var more := TransferCommand(id, cmd, bus);
      WentThen(s0, [GO], s1, more, View());
      acts := [GO] + more;
    }

    /** `lbs_submit_command` */
    method SubmitCommand(id: nat, bus: nat -> Outcome) returns (ghost acts: seq<Act>)
      requires pc == Submit1(id) && id in nodes
      modifies this
      ensures Went(old(View()), acts, View()) && pc == DataStage && inbox == old(inbox)
      ensures Handed(old(log), log, Some(old(nodes)[id].cmd))
      ensures curCmd == if bus(|old(log.wire)|).ok && old(nodes)[id].cmd != DeepSleep then Some(id) else None
      ensures LinkAfter(old(View()), link, Some(old(nodes)[id].cmd), bus)
      ensures power.deepSleep == (old(power).deepSleep || old(nodes)[id].cmd == DeepSleep)
      ensures id !in old(cmdpendingq) ==> cmdpendingq == old(cmdpendingq)
    {
      ghost var s0 := View();
      var cmd;
      cmd, acts := NumberAndTransfer(id, bus);
      ghost var s1 := View();
      FinishSubmission(id, cmd);
      SubmittedLeaves(s1, id, cmd);
      WentMore(s0, acts, s1, GO, View());
      acts := acts + [GO];
    }

    /** `lbs_execute_next_command`: the command at the head of the queue is handed over if it may be. */
    method ExecuteNextCommand(bus: nat -> Outcome) returns (ghost acts: seq<Act>)
      requires pc == Exec && (cmdpendingq != [] ==> cmdpendingq[0] in nodes)
      modifies this
      ensures Went(old(View()), acts, View()) && pc == DataStage && inbox == old(inbox)
      ensures Handed(old(log), log, Sendable(old(View())))
      ensures LinkAfter(old(View()), link, Sendable(old(View())), bus)
      ensures GateIsOpen(old(View())) ==> Executed(old(View()), View())
    {
      ghost var s0 := View();
      LookAround();
      WentStep(s0, GO, View());
      ExecDecides(s0, View());
      ghost var s1 := View();
      ghost var more := GoOn(bus);
      WentThen(s0, [GO], s1, more, View());
      acts := [GO] + more;
      if GateIsOpen(s0) {
        if s1.pc.Peeked? { ExecutedFrom(s0, s1, View()); } else { IdleExecuted(s0, s1, View()); }
      }
    }

    /** The rest of it, with the command at the head of the queue or without one */
    method GoOn(bus: nat -> Outcome) returns (ghost acts: seq<Act>)
      requires pc.Peeked? || pc == Issue(PsMode(EnterPs), ToData) || pc == DataStage
      requires pc.Peeked? ==> cmdpendingq != [] && cmdpendingq[0] == pc.id && pc.id in nodes && curCmd == None
      modifies this
      ensures Went(old(View()), acts, View()) && pc == DataStage && inbox == old(inbox)
      ensures Handed(old(log), log, if old(pc).Peeked? then Sendable(old(View())) else None)
      ensures LinkAfter(old(View()), link, if old(pc).Peeked? then Sendable(old(View())) else None, bus)
      ensures old(pc).Peeked? && GateIsOpen(old(View())) ==> Executed(old(View()), View())
      ensures old(pc).Issue? ==> Issued(old(View()), Q(), PsMode(EnterPs), false)
      ensures old(pc) == DataStage ==> View() == old(View())
    {
      ghost var s0 := View();
      if pc.Issue? {
        acts := CmdAsyncFromMain(PsMode(EnterPs), ToData);
        RanWent(s0, acts, View());
      } else if pc.Peeked? {
        acts := ExecuteCommand(pc.id, bus);
      } else {
        acts := [];
        StayedPut(s0);
      }
    }

    /** cmd.c:1255-1339 */
    method ExecuteCommand(id: nat, bus: nat -> Outcome) returns (ghost acts: seq<Act>)
      requires pc == Peeked(id) && id in nodes && cmdpendingq != [] && cmdpendingq[0] == id && curCmd == None
      modifies this
      ensures Went(old(View()), acts, View()) && pc == DataStage && inbox == old(inbox)
      ensures Handed(old(log), log, Sendable(old(View()))) && LinkAfter(old(View()), link, Sendable(old(View())), bus)
      ensures GateIsOpen(old(View())) ==> Executed(old(View()), View())
    {
      ghost var s0 := View();
      SendIffGateOpen(nodes[id].cmd, power.psstate);
      ConsiderNext(id);
      WentStep(s0, GO, View());
      ghost var s1 := View();
      ghost var more := ActOnVerdict(id, bus);
      WentThen(s0, [GO], s1, more, View());
      acts := [GO] + more;
      if GateIsOpen(s0) { ConsideredExecuted(s0, id, s1, View()); }
    }

    /** EXIT_PS is queued first, or the command is sent, or nothing is left to do. */
    method ActOnVerdict(id: nat, bus: nat -> Outcome) returns (ghost acts: seq<Act>)
      requires pc == Issue(PsMode(ExitPs), ToData) || (pc == Unlink(id) && id in nodes) || pc == DataStage
      modifies this
      ensures Went(old(View()), acts, View()) && pc == DataStage && inbox == old(inbox)
      ensures old(pc) == Unlink(id) ==>
        && Handed(old(log), log, Some(old(nodes)[id].cmd))
        && LinkAfter(old(View()), link, Some(old(nodes)[id].cmd), bus)
        && (old(cmdpendingq) != [] && id == old(cmdpendingq)[0] && id !in old(cmdpendingq)[1..] ==>
              cmdpendingq == old(cmdpendingq)[1..])
      ensures old(pc) != Unlink(id) ==> log == old(log) && link == old(link)
      ensures old(pc).Issue? ==>
        Issued(old(View()), Q(), PsMode(ExitPs), old(power).psstate != FullPower) && h.completed == old(h).completed
      ensures old(pc) == DataStage ==> View() == old(View())
    {
      ghost var s0 := View();
      if pc.Issue? {
        acts := CmdAsyncFromMain(PsMode(ExitPs), ToData);
        RanWent(s0, acts, View());
      } else if pc.Unlink? {
        acts := UnlinkAndSubmit(id, bus);
      } else {
        acts := [];
        StayedPut(s0);
      }
    }

    /** cmd.c:1335-1339 */
    method UnlinkAndSubmit(id: nat, bus: nat -> Outcome) returns (ghost acts: seq<Act>)
      requires pc == Unlink(id) && id in nodes
      modifies this
      ensures Went(old(View()), acts, View()) && pc == DataStage && inbox == old(inbox)
      ensures Handed(old(log), log, Some(old(nodes)[id].cmd))
      ensures LinkAfter(old(View()), link, Some(old(nodes)[id].cmd), bus)
      ensures old(cmdpendingq) != [] && id == old(cmdpendingq)[0] && id !in old(cmdpendingq)[1..] ==>
        cmdpendingq == old(cmdpendingq)[1..]
    {
      ghost var s0 := View();
      UnlinkNode(id);
      WentStep(s0, GO, View());
      ghost var s1 := View();
      ghost var more := SubmitCommand(id, bus);
      WentThen(s0, [GO], s1, more, View());
      acts := [GO] + more;
    }

    /** Responses and events: main.c:511-537. Neither is left. */
    method Receive(bus: nat -> Outcome) returns (ghost acts: seq<Act>)
      requires pc == Top
      modifies this
      ensures Ran(old(View()), acts, View()) && pc == AfterEvents && NothingWaits(inbox)
      ensures log.submissions == old(log.submissions)
    {
      ghost var s0 := View();
      LookAround();
      RanStep(s0, GO, View());
      acts := [GO];
      if pc.RespStart? {
        ghost var s1 := View();
        var respIdx := pc.idx;
        ghost var answer := ProcessCommandResponse(respIdx);
        RanThen(s0, acts, s1, answer, View());
        acts := acts + answer;
        ghost var s2 := View();
        DropResponse(respIdx);
        RanMore(s0, acts, s2, GO, View());
        acts := acts + [GO];
      }
      ghost var s3 := View();
      ghost var more := DrainEvents(bus);
      RanThen(s0, acts, s3, more, View());
      acts := acts + more;
    }

    /** A timed-out command: main.c:547-563 */
    method Recover() returns (ghost acts: seq<Act>)
      requires pc == TimeoutCheck
      modifies this
      ensures Ran(old(View()), acts, View()) && pc == (if settings.fwReady then PreSleepCheck else Top)
      ensures inbox == old(inbox) && log == old(log) && power == old(power) && settings == old(settings)
      ensures curCmd == (if old(link.cmdTimedOut) then None else old(curCmd)) && !link.cmdTimedOut
    {
      ghost var s0 := View();
      CompleteCurrent(link.cmdTimedOut, TimeoutClear);
      RanStep(s0, GO, View());
      ghost var s1 := View();
      ForgetTimeout();
      RanMore(s0, [GO], s1, GO, View());
      acts := [GO] + [GO];
    }

    /** A sleep request that was delayed: main.c:565-585 */
    method ConfirmDelayed(bus: nat -> Outcome) returns (ghost acts: seq<Act>)
      requires pc == PreSleepCheck
      modifies this
      ensures Ran(old(View()), acts, View()) && pc == Gate
      ensures inbox == old(inbox) && log.submissions == old(log.submissions)
      ensures settings == old(settings) && power.wakeupDev == old(power.wakeupDev)
      ensures ConfirmedLate(old(View()), bus(|old(log.wire)|).ok, power, log)
    {
      ghost var s0 := View();
      ConfirmIfConnected();
      RanStep(s0, GO, View());
      acts := [GO];
      if pc == Confirm1(ToGate) {
        ghost var s1 := View();
        ghost var more := PsConfirmSleep(ToGate, bus);
        RanThen(s0, acts, s1, more, View());
        acts := acts + more;
      }
    }

    /** Commands and data: main.c:590-624 */
    method Work(bus: nat -> Outcome) returns (ghost acts: seq<Act>)
      requires pc == Gate && (cmdpendingq != [] ==> cmdpendingq[0] in nodes)
      modifies this
      ensures Went(old(View()), acts, View()) && pc == Top && inbox == old(inbox)
      ensures SentFrom(old(View()), log, FrameGoes(old(View()), bus))
    {
      ghost var s0 := View();
      acts := PassGate(bus);
      ghost var mid := log;
      if pc == Top {
        HandedThenSent(s0, mid, log, false);
        return;
      }
      ghost var s1 := View();
      ghost var last := SendWaiting(bus);
      HandedThenSent(s0, mid, log, FrameGoes(s0, bus));
      WentThen(s0, acts, s1, last, View());
      acts := acts + last;
    }

    /** main.c:590-599 */
    method PassGate(bus: nat -> Outcome) returns (ghost acts: seq<Act>)
      requires pc == Gate && (cmdpendingq != [] ==> cmdpendingq[0] in nodes)
      modifies this
      ensures Went(old(View()), acts, View()) && (pc == DataStage || pc == Top) && inbox == old(inbox)
      ensures Handed(old(log), log, AtGate(old(View())))
      ensures pc == Top <==> Asleep(old(power).psstate) || old(power).deepSleep
      ensures LinkAfter(old(View()), link, AtGate(old(View())), bus)
    {
      ghost var s0 := View();
      LookAround();
      WentStep(s0, GO, View());
      GateDecides(s0, View());
      acts := [GO];
      if pc == Exec {
        ghost var s1 := View();
        ghost var more := ExecuteNextCommand(bus);
        WentThen(s0, acts, s1, more, View());
        acts := acts + more;
      }
    }

    /** main.c:601-624 */
    method SendWaiting(bus: nat -> Outcome) returns (ghost acts: seq<Act>)
      requires pc == DataStage
      modifies this
      ensures Went(old(View()), acts, View()) && pc == Top && inbox == old(inbox)
      ensures log.submissions == old(log.submissions)
      ensures if old(link).dnld == ResReceived && old(link).txPending then WireGot(old(log.wire), log.wire, Frame)
              else log.wire == old(log.wire)
    {
      ghost var s0 := View();
      var o := bus(|log.wire|);
      SendPacket(o.ok);
      WentStep(s0, Main(o.ok, o.sent), View());
      acts := [Main(o.ok, o.sent)];
    }

    /** Up to the gate: main.c:539-585. A device that has to be woken, or firmware that is not ready,
        ends the round there. */
    method ComeToGate(bus: nat -> Outcome) returns (ghost acts: seq<Act>)
      requires pc == AfterEvents
      modifies this
      ensures Ran(old(View()), acts, View()) && inbox == old(inbox) && log.submissions == old(log.submissions)
      ensures pc == if power.wakeupDev || !settings.fwReady then Top else Gate
    {
      ghost var s0 := View();
      LookAround();
      RanStep(s0, GO, View());
      acts := [GO];
      if pc == Top { return; }
      ghost var s1 := View();
      ghost var more := Recover();
      RanThen(s0, acts, s1, more, View());
      acts := acts + more;
      if pc == Top { return; }
      ghost var s2 := View();
      more := ConfirmDelayed(bus);
      RanThen(s0, acts, s2, more, View());
      acts := acts + more;
    }

    /** The first part of a round: main.c:511-585 */
    method RoundToGate(bus: nat -> Outcome) returns (ghost acts: seq<Act>)
      requires Inv(View()) && pc == Top
      modifies this
      ensures acts != [] && Ran(old(View()), acts, View()) && Inv(View())
      ensures NothingWaits(inbox) && log.submissions == old(log.submissions)
      ensures pc == if power.wakeupDev || !settings.fwReady then Top else Gate
    {
      ghost var s0 := View();
      acts := Receive(bus);
      ghost var s1 := View();
      ghost var more := ComeToGate(bus);
      RanThen(s0, acts, s1, more, View());
      acts := acts + more;
      RanKeepsInv(s0, acts, View());
    }

    /** One round of `lbs_thread`, left alone: a run of the machine from the top of the loop to its top
        again, for any outcome of the transfers. Afterwards no event and no response waits. Unless the
        device has to be woken or the firmware is not ready, the round came to the gate, in the state
        `gate`, and handed over the command that was sendable there, if the gate was open. */
    method ThreadRound(bus: nat -> Outcome)
      returns (ghost before: seq<Act>, ghost gate: State, ghost after: seq<Act>)
      requires Inv(View()) && pc == Top
      modifies this
      ensures before != [] && Ran(old(View()), before, gate) && Went(gate, after, View())
      ensures pc == Top && NothingWaits(inbox) && gate.log.submissions == old(log.submissions)
      ensures gate.pc == if gate.power.wakeupDev || !gate.settings.fwReady then Top else Gate
      ensures gate.pc == Top ==> after == [] && View() == gate
      ensures gate.pc == Gate ==> SentFrom(gate, log, FrameGoes(gate, bus))
      ensures Possible(gate, after) ==> Inv(View())
    {
      before := RoundToGate(bus);
      gate, after := View(), [];
      if pc == Top {
        StayedPut(gate);
        return;
      }
      if cmdpendingq != [] { PendingAlone(Q(), cmdpendingq[0]); }
      after := Work(bus);
      if Possible(gate, after) { WentKeepsInv(gate, after, View()); }
    }
  }
}
