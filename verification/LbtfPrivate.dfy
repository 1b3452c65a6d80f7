/**
 `struct lbtf_private` and the functions that update it. Each method but the last is one region, a
 step of the machine in LbtfCommand; `lbtf_cmd_work`, left alone, is a run of it.
 */
module LbtfPrivate {
  import opened Wrappers
  import opened LbtfCommand

  /** What the work function does by itself */
  predicate AllWork(acts: seq<Act>) { forall i :: 0 <= i < |acts| ==> acts[i] == Work }

  class Private {
    var cmdpendingq: seq<Cmd>
    var curCmd: Option<Cmd>
    var nrRetries: nat
    var cmdTimedOut: bool
    var cmdResponseRxed: bool
    var cmdRespBuff: Response
    var fwReady: bool
    var queued: nat  // how many commands were queued: not ghost because the commands carry it
    var inHand: Option<Cmd>
    var pc: Pc  // where the work item is
    ghost var wire: seq<Cmd>
    ghost var done: seq<Completion>
    ghost var taken: Response

    ghost function View(): State
      reads this
    {
      State(cmdpendingq, curCmd, inHand, nrRetries, cmdTimedOut, cmdResponseRxed, cmdRespBuff, fwReady, pc,
            queued, wire, done, taken)
    }

    constructor ()
      ensures View() == LbtfCommand.Init()
    {
      cmdpendingq, curCmd, nrRetries, cmdTimedOut, cmdResponseRxed := [], None, 0, false, false;
      cmdRespBuff, fwReady, queued, taken := NO_RESPONSE, false, 0, NO_RESPONSE;
      inHand, pc, wire, done := None, Idle, [], [];
    }

    /** `lbtf_queue_cmd` under the lock; `__lbtf_cmd_async` has chosen the sequence number. */
    method QueueCmd(sn: nat)
      modifies this
      ensures View() == QueueCommand(old(View()), sn)
    {
      cmdpendingq := cmdpendingq + [Cmd(queued, sn)];
      queued := queued + 1;
    }

    /** `command_timer_fn` */
    method CommandTimerFn()
      modifies `cmdTimedOut
      ensures View() == Step(old(View()), Timer)
    {
      if curCmd == None { return; }
      cmdTimedOut := true;
    }

    /** The card's driver fills the response buffer and calls `lbtf_cmd_response_rx`. */
    method CmdResponseRx(r: Response)
      modifies `cmdRespBuff, `cmdResponseRxed
      ensures View() == Step(old(View()), ResponseRx(r))
    {
      cmdRespBuff := r;
      cmdResponseRxed := true;
    }

    /** `lbtf_complete_command` */
    method CompleteCommand(ghost outcome: Outcome)
      requires curCmd.Some?
      modifies `curCmd, `done
      ensures curCmd == None && done == old(done) + [Completion(old(curCmd).value, outcome)]
    {
      done := done + [Completion(curCmd.value, outcome)];
      curCmd := None;
    }

    /** The start of `lbtf_cmd_work` */
    method StartWork()
      modifies `cmdResponseRxed, `pc
      ensures old(pc) == Idle ==> View() == WorkStep(old(View()))
    {
      pc := if cmdResponseRxed then RxCheck else TimeoutCheck;
      cmdResponseRxed := false;
    }

    /** `lbtf_process_rx_command` up to the callback */
    method ProcessRxCommand()
      modifies this
      ensures View() == CheckResponse(old(View()))
    {
      pc := TimeoutCheck;
      if curCmd == None { return; }
      if cmdRespBuff.sn != curCmd.value.sn { return; }
      if !cmdRespBuff.fits { return; }
      if cmdRespBuff.defer { return; }
      taken := cmdRespBuff;
      cmdTimedOut := false;
      if nrRetries != 0 { nrRetries := 0; }
      if cmdRespBuff.result != 0 {
        CompleteCommand(Answered(cmdRespBuff.result, cmdRespBuff));
        return;
      }
      pc := RxComplete;
    }

    /** `lbtf_process_rx_command` after the callback */
    method FinishRxCommand()
      modifies `curCmd, `done, `pc
      ensures View() == CompleteResponse(old(View()))
    {
      if curCmd.Some? { CompleteCommand(Answered(0, taken)); }
      pc := TimeoutCheck;
    }

    /** main.c:103-119 */
    method HandleTimeout()
      modifies this
      ensures View() == CheckTimeout(old(View()))
    {
      if cmdTimedOut && curCmd.Some? {
        nrRetries := nrRetries + 1;
        if nrRetries > 10 {
          CompleteCommand(TimedOut);
          nrRetries := 0;
        } else {
          cmdpendingq := [curCmd.value] + cmdpendingq;
          curCmd := None;
        }
      }
      cmdTimedOut := false;
      pc := ReadyCheck;
    }

    /** `lbtf_execute_next_command` */
    method ExecuteNextCommand()
      modifies `cmdpendingq, `inHand, `pc
      ensures View() == TakeNext(old(View()))
    {
      pc := Idle;
      if curCmd.Some? { return; }
      if cmdpendingq != [] {
        inHand := Some(cmdpendingq[0]);
        cmdpendingq := cmdpendingq[1..];
        pc := Submit;
      }
    }

    /** `lbtf_submit_command` */
    method HandToCard(cmd: Cmd)
      requires inHand == Some(cmd)
      modifies `curCmd, `inHand, `wire, `pc
      ensures View() == SubmitCommand(old(View()))
    {
      curCmd := Some(cmd);
      inHand := None;
      wire := wire + [cmd];
      pc := Idle;
    }

    /** The end of `lbtf_cmd_work`: main.c:121-128 */
    method CheckReady()
      requires pc == ReadyCheck
      modifies `pc
      ensures View() == WorkStep(old(View()))
    {
      pc := if fwReady && curCmd == None then Exec else Idle;
    }

    /** The response part of `lbtf_cmd_work`: main.c:94-101 */
    method HandleResponse() returns (ghost acts: seq<Act>)
      requires pc == Idle
      modifies this
      ensures AllWork(acts) && View() == Run(old(View()), acts) && pc == TimeoutCheck
      ensures acts != [] && !cmdResponseRxed
    {
      ghost var s := View();
      StartWork();
      WorkIsRun(s);
      acts := [Work];
      if pc != RxCheck { return; }
      ghost var s1 := View();
      ProcessRxCommand();
      WorkIsRun(s1);
      RunAppend(s, acts, [Work]);
      acts := acts + [Work];
      if pc != RxComplete { return; }
      ghost var s2 := View();
      FinishRxCommand();
      WorkIsRun(s2);
      RunAppend(s, acts, [Work]);
      acts := acts + [Work];
    }

    /** The timeout part: main.c:103-128 */
    method HandleTimeoutAndReady() returns (ghost acts: seq<Act>)
      requires pc == TimeoutCheck
      modifies this
      ensures AllWork(acts) && View() == Run(old(View()), acts)
      ensures pc == (if fwReady && curCmd == None then Exec else Idle)
      ensures !cmdTimedOut && cmdResponseRxed == old(cmdResponseRxed)
    {
      ghost var s := View();
      HandleTimeout();
      WorkIsRun(s);
      ghost var s1 := View();
      CheckReady();
      WorkIsRun(s1);
      RunAppend(s, [Work], [Work]);
      acts := [Work] + [Work];
    }

    /** `lbtf_execute_next_command` with `lbtf_submit_command` */
    method Execute() returns (ghost acts: seq<Act>)
      requires pc == Exec && curCmd == None
      modifies this
      ensures AllWork(acts) && View() == Run(old(View()), acts) && pc == Idle && (curCmd == None ==> cmdpendingq == [])
      ensures cmdTimedOut == old(cmdTimedOut) && cmdResponseRxed == old(cmdResponseRxed)
    {
      ghost var s := View();
      ExecuteNextCommand();
      WorkIsRun(s);
      acts := [Work];
      if pc != Submit { return; }
      ghost var s1 := View();
      HandToCard(inHand.value);
      WorkIsRun(s1);
      RunAppend(s, acts, [Work]);
      acts := acts + [Work];
    }

    /** `lbtf_cmd_work`, left alone, is a run of the machine; afterwards no response and no timeout is
        left to look at and, if the firmware is ready, a command is with the card or none is waiting. */
    method CmdWork() returns (ghost acts: seq<Act>)
      requires Inv(View()) && pc == Idle
      modifies this
      ensures acts != [] && AllWork(acts) && View() == Run(old(View()), acts) && pc == Idle && Inv(View())
      ensures fwReady && curCmd == None ==> cmdpendingq == []
      ensures !cmdResponseRxed && !cmdTimedOut
    {
      ghost var s := View();
      acts := HandleResponse();
      ghost var s1 := View();
      ghost var more := HandleTimeoutAndReady();
      RunAppend(s, acts, more);
      acts := acts + more;
      RunKeepsInv(s, acts);
      if pc != Exec { return; }
      more := Execute();
      RunAppend(s, acts, more);
      acts := acts + more;
      RunKeepsInv(s, acts);
    }
  }
}
