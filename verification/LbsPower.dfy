/** What the power state, the interface and the inbox promise over runs: the power state is what the card
    acknowledged, an interface that is busy stays so until something frees it, and what the card sends is
    looked at once, in order. */
module LbsPower {
  import opened Wrappers
  import opened LbsCommand
  import opened LbsCommandLaws
  import opened LbsCommandRuns

  // ------------------------------------------------------------------------- answers

  /** The main thread is about to look at this response. */
  predicate Looks(s: State, a: Act, r: Response) {
    a.Main? && s.pc.RespStart? && At(s.inbox, s.pc.idx) == Some(r)
  }

  /** The response carries the number of the current command, fits it and is not DEFER. */
  predicate Fitting(s: State, r: Response) {
    s.q.cur.Some? && r.answers % 0x1_0000 == s.log.submissions % 0x1_0000 && r.fits && !r.defer
  }

  /** A response is taken if and only if it is fitting. One that is taken either completes the current
      command at once or leads to a point from which that is the next thing the main thread does to it;
      one that is not changes nothing. A successful answer to ENTER_PS ends in AWAKE, to EXIT_PS in
      FULL_POWER, and EXIT_PS follows at once if the connection is gone by then; a refused ENTER_PS gives
      up power saving, in monitor mode only. */
  lemma AnswerDecides(s: State, before: seq<Act>, a: Act, r: Response, s': State)
    requires Reached(s, before) && Enabled(s, a) && Looks(s, a, r) && s' == Step(s, a)
    ensures Fitting(s, r) <==> s'.log.matches != s.log.matches
    ensures !Fitting(s, r) ==> s' == s.(pc := RespClear(s.pc.idx))
    ensures Fitting(s, r) ==>
      && s'.log.matches == s.log.matches + [Match(s.log.submissions, r.answers, r.ps, r.ok)]
      && (s'.q.cur == None || s'.pc == RespCallback(s.pc.idx)
          || s'.pc == Issue(PsMode(ExitPs), ToAnswer(s.pc.idx)))
      && (s'.pc == RespCallback(s.pc.idx) <==> r.ok && r.ps == None)
      && (s'.pc == Issue(PsMode(ExitPs), ToAnswer(s.pc.idx)) <==>
            r.ok && r.ps == Some(EnterPs) && !s.settings.connected)
      && (r.ok && r.ps == Some(EnterPs) ==> s'.power.psstate == Awake)
      && (r.ok && r.ps == Some(ExitPs) ==> s'.power.psstate == FullPower)
      && (!r.ok || r.ps == None || r.ps == Some(OtherPs) ==> s'.power == s.power)
      && (s'.settings.psCam <==>
            s.settings.psCam || (!r.ok && s.settings.monitor && r.ps == Some(EnterPs)))
  {
    ReachedInv(s, before);
    assert Accepted(s.q, r) <==> Fitting(s, r);
    if s.q.cur.Some? { AnswerTaken(s, s.pc.idx, r); }
  }

  lemma AnswerTaken(s: State, idx: bool, r: Response)
    requires s.q.cur.Some?
    ensures var s' := TakeAnswer(s, idx, r);
      s'.q.cur == None || s'.pc == RespCallback(idx) || s'.pc == Issue(PsMode(ExitPs), ToAnswer(idx))
  {}

  // ------------------------------------- what the parts of the main thread's loop touch

  lemma AnswerTouches(s: State, s': State)
    requires Answering(s.pc) && s' == AnswerStep(s)
    ensures s'.log.wire == s.log.wire && s'.link.dnld == s.link.dnld && s'.inbox.events == s.inbox.events
    ensures s'.power.needToWakeup ==> s.power.needToWakeup
    ensures !s.pc.RespClear? ==> s'.inbox == s.inbox
  {}

  lemma DetourTouches(s: State, ok: bool, sent: bool, s': State)
    requires Detouring(s.pc) && s' == DetourStep(s, ok, sent)
    ensures s'.log.matches == s.log.matches && s'.power.needToWakeup == s.power.needToWakeup
    ensures s'.inbox == s.inbox && Reading(s'.pc) == Reading(s.pc) && !s'.pc.RespStart?
    ensures if s.pc.Confirm2? then s'.log == Logged(s, ConfirmSleep) && s'.link == Marked(s.link, CmdSent, ok, sent)
            else s'.log == s.log && s'.link.dnld == if s.pc.Confirm3? then ResReceived else s.link.dnld
  {}

  lemma CheckTouches(s: State, s': State)
    requires Checking(s.pc) && s' == CheckStep(s)
    ensures s'.log == s.log && s'.power.needToWakeup == s.power.needToWakeup && s'.link.dnld == s.link.dnld
    ensures s'.inbox.lower == s.inbox.lower && s'.inbox.upper == s.inbox.upper && Reading(s'.pc) == None
    ensures s.pc != EventLoop ==> s'.inbox == s.inbox
  {}

  lemma ChooseTouches(s: State, s': State)
    requires Choosing(s.pc) && s' == ChooseStep(s)
    ensures s'.log.matches == s.log.matches && s'.log.wire == s.log.wire && s'.link.dnld == s.link.dnld
    ensures s'.power.psstate == s.power.psstate && s'.inbox == s.inbox && Reading(s'.pc) == None
    ensures !Asleep(s.power.psstate) ==> s'.power.needToWakeup == s.power.needToWakeup
  {}

  lemma SendTouches(s: State, ok: bool, sent: bool, s': State)
    requires Sending(s.pc) && s' == SendStep(s, ok, sent)
    ensures s'.log.matches == s.log.matches && s'.inbox == s.inbox && Reading(s'.pc) == None
    ensures s'.power.psstate == s.power.psstate && s'.power.needToWakeup == s.power.needToWakeup
  {}

  lemma SendTransfers(s: State, ok: bool, sent: bool, s': State)
    requires Sending(s.pc) && s' == SendStep(s, ok, sent)
    ensures s.pc.Submit2? ==>
      s'.log == Logged(s, Cmd(CmdOf(s.q, s.pc.id))) && s'.link == Marked(s.link, CmdSent, ok, sent)
    ensures s.pc.DataStage? && s.link.dnld == ResReceived && s.link.txPending ==>
      s'.log == Logged(s, Frame) && s'.link.dnld == if ok then DataSent else ResReceived
    ensures s.pc.DataStage? && !(s.link.dnld == ResReceived && s.link.txPending) ==>
      s'.log == s.log && s'.link.dnld == s.link.dnld
    ensures s.pc.SubmitFail? || s.pc.Submit3? ==>
      s'.log == s.log && s'.link.dnld == if Frees(s, Main(ok, sent)) then ResReceived else s.link.dnld
  {}

  /** Where the main thread only looks around */
  predicate Looking(pc: Pc) {
    !Answering(pc) && !Detouring(pc) && !Checking(pc) && !Choosing(pc) && !Sending(pc)
  }

  // --------------------------------------------------------------------- power state

  predicate Switches(m: Match) { m.ok && (m.ps == Some(EnterPs) || m.ps == Some(ExitPs)) }

  /** The action of the last PS_MODE command that the card acknowledged with success */
  function LastSwitch(matches: seq<Match>): Option<PsAction> {
    if matches == [] then None
    else
      var m := matches[|matches| - 1];
      if Switches(m) then m.ps else LastSwitch(matches[..|matches| - 1])
  }

  predicate Tracks(ps: PsState, matches: seq<Match>) { ps == FullPower <==> LastSwitch(matches) != Some(EnterPs) }

  lemma LastSwitchSnoc(matches: seq<Match>, m: Match)
    ensures LastSwitch(matches + [m]) == if Switches(m) then m.ps else LastSwitch(matches)
  {
    assert (matches + [m])[..|matches|] == matches;
  }

  lemma AnswerTracks(s: State, s': State)
    requires Answering(s.pc) && Tracks(s.power.psstate, s.log.matches) && s' == AnswerStep(s)
    ensures Tracks(s'.power.psstate, s'.log.matches)
  {
    if s.pc.RespStart? && At(s.inbox, s.pc.idx).Some? {
      var r := At(s.inbox, s.pc.idx).value;
      LastSwitchSnoc(s.log.matches, Match(s.log.submissions, r.answers, r.ps, r.ok));
    }
  }

  lemma DetourFull(s: State, ok: bool, sent: bool, s': State)
    requires Inv(s) && Detouring(s.pc) && s' == DetourStep(s, ok, sent)
    ensures s'.power.psstate == FullPower <==> s.power.psstate == FullPower
  {}

  lemma CheckFull(s: State, s': State)
    requires Checking(s.pc) && s' == CheckStep(s)
    ensures s'.power.psstate == FullPower <==> s.power.psstate == FullPower
  {}

  /** Elsewhere the power state neither comes to FULL_POWER nor leaves it. */
  lemma ElsewhereTracks(s: State, ok: bool, sent: bool, s': State)
    requires Inv(s) && !Answering(s.pc) && s' == MainStep(s, ok, sent)
    ensures s'.power.psstate == FullPower <==> s.power.psstate == FullPower
    ensures s'.log.matches == s.log.matches
  {
    if Detouring(s.pc) {
      DetourTouches(s, ok, sent, s');
      DetourFull(s, ok, sent, s');
    } else if Checking(s.pc) {
      CheckTouches(s, s');
      CheckFull(s, s');
    } else if Choosing(s.pc) {
      ChooseTouches(s, s');
    } else if Sending(s.pc) {
      SendTouches(s, ok, sent, s');
    }
  }

  lemma StepTracks(s: State, a: Act, s': State)
    requires Inv(s) && Tracks(s.power.psstate, s.log.matches) && Allowed(s, a) && s' == Step(s, a)
    ensures Tracks(s'.power.psstate, s'.log.matches)
  {
    if a.Main? {
      if Answering(s.pc) { AnswerTracks(s, s'); } else { ElsewhereTracks(s, a.ok, a.sent, s'); }
    }
  }

  lemma {:induction false} RunTracks(s: State, acts: seq<Act>)
    requires Inv(s) && Tracks(s.power.psstate, s.log.matches) && Possible(s, acts)
    ensures Tracks(Run(s, acts).power.psstate, Run(s, acts).log.matches)
    decreases |acts|
  {
    if acts != [] {
      StepTracks(s, acts[0], Step(s, acts[0]));
      StepKeepsInv(s, acts[0], Step(s, acts[0]));
      RunTracks(Step(s, acts[0]), acts[1..]);
    }
  }

  lemma ReachedTracks(s: State, acts: seq<Act>)
    requires Reached(s, acts)
    ensures Tracks(s.power.psstate, s.log.matches)
  {
    InitInv();
    assert Tracks(FullPower, []);
    RunTracks(Init(), acts);
  }

  /** The driver is in FULL_POWER if and only if the last PS_MODE command that the card acknowledged was
      not ENTER_PS: it was EXIT_PS, or there was none. */
  lemma FullPowerAsAcknowledged(s: State, acts: seq<Act>)
    requires Reached(s, acts)
    ensures s.power.psstate == FullPower <==>
      LastSwitch(s.log.matches) == Some(ExitPs) || LastSwitch(s.log.matches) == None
  {
    ReachedTracks(s, acts);
    LastSwitchKinds(s.log.matches);
  }

  lemma {:induction false} LastSwitchKinds(matches: seq<Match>)
    ensures LastSwitch(matches) in [None, Some(EnterPs), Some(ExitPs)]
  {
    if matches != [] { LastSwitchKinds(matches[..|matches| - 1]); }
  }

  /** The card's success answer to a PS_MODE command is about to be taken. */
  predicate Acknowledges(s: State, a: Act, action: PsAction) {
    && a.Main? && s.pc.RespStart? && At(s.inbox, s.pc.idx).Some?
    && var r := At(s.inbox, s.pc.idx).value; Fitting(s, r) && r.ok && r.ps == Some(action)
  }

  predicate Hears(s: State, a: Act, e: CardEvent) { a.Main? && s.pc == HandleEvent(e) }

  /** The sleep confirmation went out and nothing has come in the meantime. */
  predicate Dozes(s: State, a: Act) { a.Main? && s.pc.Confirm3? && NothingWaits(s.inbox) }

  /** A sleep request is dropped because the connection is gone. */
  predicate Drops(s: State, a: Act) {
    a.Main? && s.pc == PreSleepCheck && s.power.psstate == PreSleep && Quiet(s) && !s.settings.connected
  }

  /** Who moves the power state, whatever step of whatever actor it is. */
  lemma PowerMoves(s: State, before: seq<Act>, a: Act, s': State)
    requires Reached(s, before) && Enabled(s, a) && s' == Step(s, a)
    ensures var ps, ps' := s.power.psstate, s'.power.psstate;
      && (ps' == FullPower <==>
            Acknowledges(s, a, ExitPs) || (ps == FullPower && !Acknowledges(s, a, EnterPs)))
      && (ps' == Sleep <==> Dozes(s, a) || (ps == Sleep && !Wakes(a)))
      && (ps != PreSleep ==>
            (ps' == PreSleep <==> Hears(s, a, PsSleep) && ps != FullPower && s.q.pending == []))
      && (ps == PreSleep ==>
            (ps' == PreSleep <==>
               !(Acknowledges(s, a, EnterPs) || Acknowledges(s, a, ExitPs) || Hears(s, a, PsAwake)
                 || Dozes(s, a) || Drops(s, a))))
  {
    ReachedInv(s, before);
    Causes(s, a);
    StepMoves(s, a, s');
  }

  /** When the causes can occur; no two do at once. */
  lemma Causes(s: State, a: Act)
    requires Inv(s)
    ensures Dozes(s, a) || Drops(s, a) ==> s.power.psstate == PreSleep
    ensures Acknowledges(s, a, EnterPs) || Acknowledges(s, a, ExitPs) || Hears(s, a, PsSleep) || Hears(s, a, PsAwake)
      ==> s.power.psstate != Sleep
  {}

  lemma StepMoves(s: State, a: Act, s': State)
    requires Inv(s) && Allowed(s, a) && s' == Step(s, a)
    ensures s'.power.psstate ==
      if Wakes(a) && s.power.psstate == Sleep then Awake
      else if Acknowledges(s, a, ExitPs) then FullPower
      else if Acknowledges(s, a, EnterPs) then Awake
      else MovedTo(s, a)
  {
    if a.Main? {
      if Answering(s.pc) { AnswerMoves(s, a, s'); } else { ElsewhereMoves(s, a, s'); }
    }
  }

  lemma AnswerMoves(s: State, a: Act, s': State)
    requires Inv(s) && a.Main? && Answering(s.pc) && s' == AnswerStep(s)
    ensures s'.power.psstate ==
      if Acknowledges(s, a, ExitPs) then FullPower else if Acknowledges(s, a, EnterPs) then Awake
      else s.power.psstate
    ensures Acknowledges(s, a, ExitPs) || Acknowledges(s, a, EnterPs) ==> s.power.psstate != Sleep
  {
    if s.pc.RespStart? && At(s.inbox, s.pc.idx).Some? {
      assert Accepted(s.q, At(s.inbox, s.pc.idx).value) <==> Fitting(s, At(s.inbox, s.pc.idx).value);
    }
  }

  /** The power state after a step elsewhere */
  function MovedTo(s: State, a: Act): PsState {
    if Hears(s, a, PsSleep) && s.power.psstate != FullPower && s.q.pending == [] then PreSleep
    else if Hears(s, a, PsAwake) && s.power.psstate != FullPower then Awake
    else if Dozes(s, a) then Sleep
    else if Drops(s, a) then Awake
    else s.power.psstate
  }

  lemma DetourMoves(s: State, a: Act, s': State)
    requires a.Main? && Detouring(s.pc) && s' == DetourStep(s, a.ok, a.sent)
    ensures s'.power.psstate == MovedTo(s, a)
  {}

  lemma CheckMoves(s: State, a: Act, s': State)
    requires a.Main? && Checking(s.pc) && s' == CheckStep(s)
    ensures s'.power.psstate == MovedTo(s, a)
  {}

  lemma ElsewhereMoves(s: State, a: Act, s': State)
    requires a.Main? && !Answering(s.pc) && s' == MainStep(s, a.ok, a.sent)
    ensures s'.power.psstate == MovedTo(s, a)
  {
    if Detouring(s.pc) {
      DetourMoves(s, a, s');
    } else if Checking(s.pc) {
      CheckMoves(s, a, s');
    } else if Choosing(s.pc) {
      ChooseTouches(s, s');
    } else if Sending(s.pc) {
      SendTouches(s, a.ok, a.sent, s');
    }
  }

  // ----------------------------------------------------------- a flag that is never set

  lemma MainNeedsNoWakeup(s: State, ok: bool, sent: bool, s': State)
    requires Inv(s) && !s.power.needToWakeup && s' == MainStep(s, ok, sent)
    ensures !s'.power.needToWakeup
  {
    if Answering(s.pc) {
      AnswerTouches(s, s');
    } else if Detouring(s.pc) {
      DetourTouches(s, ok, sent, s');
    } else if Checking(s.pc) {
      CheckTouches(s, s');
    } else if Choosing(s.pc) {
      ChooseTouches(s, s');
    } else if Sending(s.pc) {
      SendTouches(s, ok, sent, s');
    }
  }

  lemma StepNeedsNoWakeup(s: State, a: Act, s': State)
    requires Inv(s) && !s.power.needToWakeup && Allowed(s, a) && s' == Step(s, a)
    ensures !s'.power.needToWakeup
  {
    if a.Main? { MainNeedsNoWakeup(s, a.ok, a.sent, s'); }
  }

  lemma {:induction false} RunNeedsNoWakeup(s: State, acts: seq<Act>)
    requires Inv(s) && !s.power.needToWakeup && Possible(s, acts)
    ensures !Run(s, acts).power.needToWakeup
    decreases |acts|
  {
    if acts != [] {
      StepNeedsNoWakeup(s, acts[0], Step(s, acts[0]));
      StepKeepsInv(s, acts[0], Step(s, acts[0]));
      RunNeedsNoWakeup(Step(s, acts[0]), acts[1..]);
    }
  }

  /** needtowakeup is never set: the gate keeps a sleeping device from coming to where it would be. */
  lemma NeverNeedsWakeup(s: State, acts: seq<Act>)
    requires Reached(s, acts)
    ensures !s.power.needToWakeup
  {
    InitInv();
    RunNeedsNoWakeup(Init(), acts);
  }

  // ------------------------------------------------------------------------ interface

  /** A transfer that the bus driver accepts makes the interface busy, and is only begun when it is free. */
  lemma TransferMarksBusy(s: State, before: seq<Act>, ok: bool, sent: bool)
    requires Reached(s, before) && Enabled(s, Main(ok, sent))
    ensures var s', n := Step(s, Main(ok, sent)), |s.log.wire|;
      s'.log.wire != s.log.wire ==>
        && |s'.log.wire| == n + 1 && s'.log.wire[..n] == s.log.wire && s.link.dnld == ResReceived
        && (ok ==> s'.link.dnld == if s'.log.wire[n].what == Frame then DataSent else CmdSent)
  {
    ReachedInv(s, before);
    if Step(s, Main(ok, sent)).log.wire != s.log.wire { MainTransfers(s, ok, sent, Step(s, Main(ok, sent))); }
  }

  /** A step of the main thread begins no transfer, or one, with the interface free. */
  lemma MainTransfers(s: State, ok: bool, sent: bool, s': State)
    requires Inv(s) && s' == MainStep(s, ok, sent) && s'.log.wire != s.log.wire
    ensures s.link.dnld == ResReceived && |s'.log.wire| == |s.log.wire| + 1
    ensures s'.log.wire[..|s.log.wire|] == s.log.wire
    ensures ok ==> s'.link.dnld == if s'.log.wire[|s.log.wire|].what == Frame then DataSent else CmdSent
  {
    if Answering(s.pc) {
      AnswerTouches(s, s');
    } else if Detouring(s.pc) {
      DetourTouches(s, ok, sent, s');
    } else if Checking(s.pc) {
      CheckTouches(s, s');
    } else if Choosing(s.pc) {
      ChooseTouches(s, s');
    } else if Sending(s.pc) {
      SendTransfers(s, ok, sent, s');
    }
  }

  /** What frees a busy interface: the card's acknowledgement, either timer, and three places at which the
      driver does it itself */
  predicate Frees(s: State, a: Act) {
    || a == HostToCardDone || a == TxLockup
    || (a == CmdTimeout && s.q.cur.Some? && s.link.dnld == CmdSent)
    || (a.Main? && (s.pc.SubmitFail? || s.pc.Confirm3?
                    || (s.pc.Submit3? && s.pc.cmd == DeepSleep && s.settings.autoDeepSleep)))
  }

  lemma BusyMain(s: State, ok: bool, sent: bool, s': State)
    requires Inv(s) && s.link.dnld != ResReceived && s' == MainStep(s, ok, sent)
    ensures s'.log.wire == s.log.wire
    ensures s'.link.dnld == if Frees(s, Main(ok, sent)) then ResReceived else s.link.dnld
  {
    if Answering(s.pc) {
      AnswerTouches(s, s');
    } else if Detouring(s.pc) {
      DetourTouches(s, ok, sent, s');
    } else if Checking(s.pc) {
      CheckTouches(s, s');
    } else if Choosing(s.pc) {
      ChooseTouches(s, s');
    } else if Sending(s.pc) {
      SendTransfers(s, ok, sent, s');
    }
  }

  lemma BusyStep(s: State, a: Act, s': State)
    requires Inv(s) && s.link.dnld != ResReceived && Allowed(s, a) && s' == Step(s, a)
    ensures s'.log.wire == s.log.wire && s'.link.dnld == if Frees(s, a) then ResReceived else s.link.dnld
  {
    if a.Main? { BusyMain(s, a.ok, a.sent, s'); }
  }

  predicate NothingFrees(s: State, acts: seq<Act>)
    requires Possible(s, acts)
    decreases |acts|
  {
    acts != [] ==> !Frees(s, acts[0]) && NothingFrees(Step(s, acts[0]), acts[1..])
  }

  lemma {:induction false} BusyLastsFrom(s: State, acts: seq<Act>)
    requires Inv(s) && s.link.dnld != ResReceived && Possible(s, acts) && NothingFrees(s, acts)
    ensures Run(s, acts).log.wire == s.log.wire && Run(s, acts).link.dnld == s.link.dnld
    decreases |acts|
  {
    if acts != [] {
      BusyStep(s, acts[0], Step(s, acts[0]));
      StepKeepsInv(s, acts[0], Step(s, acts[0]));
      BusyLastsFrom(Step(s, acts[0]), acts[1..]);
    }
  }

  /** A busy interface stays busy with the same transfer, and no other begins, until something frees it. */
  lemma BusyLasts(s: State, before: seq<Act>, acts: seq<Act>)
    requires Reached(s, before) && s.link.dnld != ResReceived && Possible(s, acts) && NothingFrees(s, acts)
    ensures Run(s, acts).log.wire == s.log.wire && Run(s, acts).link.dnld == s.link.dnld
  {
    ReachedInv(s, before);
    BusyLastsFrom(s, acts);
  }

  /** A timer that goes off before the main thread checks for it gets the queue going again: the command
      that was stuck is completed, and the interface is free, also if the card never took the command. */
  lemma TimeoutUnsticks(s: State, before: seq<Act>, s1: State, s2: State)
    requires Reached(s, before) && s.pc == TimeoutCheck && s.q.cur.Some? && s.link.dnld != DataSent
    requires s1 == Step(s, CmdTimeout) && s2 == Step(s1, GO)
    ensures Quiet(s2) && s2.q.h.completed == s.q.h.completed + [TicketOf(s.q.nodes, s.q.cur.value)]
  {}

  // --------------------------------------------------------------- events and responses

  function Arriving(acts: seq<Act>): seq<CardEvent> {
    if acts == [] then [] else (if acts[0].QueueEvent? then [acts[0].e] else []) + Arriving(acts[1..])
  }

  /** The event that the main thread goes on to handle */
  function TakenEvent(s: State, a: Act, s': State): seq<CardEvent> {
    if a.Main? && s.pc == EventLoop && s'.pc.HandleEvent? then [s'.pc.e] else []
  }

  function Heard(s: State, acts: seq<Act>): seq<CardEvent>
    requires Possible(s, acts)
    decreases |acts|
  {
    if acts == [] then []
    else TakenEvent(s, acts[0], Step(s, acts[0])) + Heard(Step(s, acts[0]), acts[1..])
  }

  lemma MainEvents(s: State, ok: bool, sent: bool, s': State)
    requires s' == MainStep(s, ok, sent)
    ensures TakenEvent(s, Main(ok, sent), s') + s'.inbox.events == s.inbox.events
    ensures s.pc != EventLoop ==> s'.inbox.events == s.inbox.events
  {
    if s.pc == EventLoop {
      if s.inbox.events != [] { assert [s.inbox.events[0]] + s.inbox.events[1..] == s.inbox.events; }
    } else if Answering(s.pc) {
      AnswerTouches(s, s');
    } else if Detouring(s.pc) {
      DetourTouches(s, ok, sent, s');
    } else if Checking(s.pc) {
      CheckTouches(s, s');
    } else if Choosing(s.pc) {
      ChooseTouches(s, s');
    } else if Sending(s.pc) {
      SendTouches(s, ok, sent, s');
    }
  }

  /** Events are handled in the order they came, each once, and none is lost. */
  lemma {:induction false} EventsInOrder(s: State, acts: seq<Act>)
    requires Possible(s, acts)
    ensures Heard(s, acts) + Run(s, acts).inbox.events == s.inbox.events + Arriving(acts)
    decreases |acts|
  {
    if acts == [] {
      assert s.inbox.events + [] == s.inbox.events;
    } else {
      var a, s' := acts[0], Step(s, acts[0]);
      var first, here := TakenEvent(s, a, s'), if a.QueueEvent? then [a.e] else [];
      EventsInOrder(s', acts[1..]);
      StepEvents(s, a, s');
      Regroup(first, Heard(s', acts[1..]), Run(s', acts[1..]).inbox.events, s'.inbox.events, Arriving(acts[1..]),
              s.inbox.events, here);
    }
  }

  lemma StepEvents(s: State, a: Act, s': State)
    requires Allowed(s, a) && s' == Step(s, a)
    ensures TakenEvent(s, a, s') + s'.inbox.events == s.inbox.events + (if a.QueueEvent? then [a.e] else [])
  {
    if a.Main? {
      MainEvents(s, a.ok, a.sent, s');
      assert s.inbox.events + [] == s.inbox.events;
    }
  }

  lemma Regroup(first: seq<CardEvent>, heard: seq<CardEvent>, left: seq<CardEvent>, mid: seq<CardEvent>,
                more: seq<CardEvent>, start: seq<CardEvent>, here: seq<CardEvent>)
    requires heard + left == mid + more && first + mid == start + here
    ensures (first + heard) + left == start + (here + more)
  {
    assert (first + heard) + left == first + (heard + left) == (first + mid) + more;
  }

  function Opt(r: Option<Response>): seq<Response> { if r.Some? then [r.value] else [] }

  /** The buffer of the response that the main thread is dealing with */
  function Reading(pc: Pc): Option<bool> {
    match pc
    case RespStart(idx) => Some(idx)
    case RespCallback(idx) => Some(idx)
    case RespAnswer(idx) => Some(idx)
    case RespClear(idx) => Some(idx)
    case Issue(_, next) => AnswerNext(next)
    case AwaitQueued(_, next) => AnswerNext(next)
    case Confirm1(next) => AnswerNext(next)
    case Confirm2(next) => AnswerNext(next)
    case Confirm3(next) => AnswerNext(next)
    case _ => None
  }

  function AnswerNext(next: Next): Option<bool> {
    match next
    case ToAnswer(idx) => Some(idx)
    case _ => None
  }

  predicate Occupied(s: State) { Reading(s.pc).Some? ==> At(s.inbox, Reading(s.pc).value).Some? }

  /** The responses that the main thread has not looked at yet */
  function Unread(s: State): multiset<Response> {
    if s.pc.RespStart? || Reading(s.pc) == None then multiset(Opt(s.inbox.lower)) + multiset(Opt(s.inbox.upper))
    else multiset(Opt(At(s.inbox, !Reading(s.pc).value)))
  }

  function Notified(acts: seq<Act>): multiset<Response> {
    if acts == [] then multiset{}
    else (if acts[0].NotifyResponse? then multiset{acts[0].r} else multiset{}) + Notified(acts[1..])
  }

  function LookedAt(s: State, a: Act): multiset<Response> {
    if a.Main? && s.pc.RespStart? then multiset(Opt(At(s.inbox, s.pc.idx))) else multiset{}
  }

  function Read(s: State, acts: seq<Act>): multiset<Response>
    requires Possible(s, acts)
    decreases |acts|
  {
    if acts == [] then multiset{} else LookedAt(s, acts[0]) + Read(Step(s, acts[0]), acts[1..])
  }

  /** The main thread stays with the same response, or with none. */
  lemma ReadsOn(s: State, s': State)
    requires Occupied(s) && !s.pc.RespStart? && !s'.pc.RespStart? && Reading(s'.pc) == Reading(s.pc)
    requires s'.inbox.lower == s.inbox.lower && s'.inbox.upper == s.inbox.upper
    ensures Occupied(s') && Unread(s') == Unread(s)
  {}

  lemma ElsewhereReads(s: State, ok: bool, sent: bool, s': State)
    requires Occupied(s) && !Answering(s.pc) && !Looking(s.pc) && s' == MainStep(s, ok, sent)
    ensures Reading(s'.pc) == Reading(s.pc) && !s'.pc.RespStart?
    ensures s'.inbox.lower == s.inbox.lower && s'.inbox.upper == s.inbox.upper
  {
    if Detouring(s.pc) {
      DetourTouches(s, ok, sent, s');
    } else if Checking(s.pc) {
      CheckTouches(s, s');
    } else if Choosing(s.pc) {
      ChooseTouches(s, s');
    } else {
      SendTouches(s, ok, sent, s');
    }
  }

  lemma MainReads(s: State, ok: bool, sent: bool, s': State)
    requires Occupied(s) && s' == MainStep(s, ok, sent)
    ensures Occupied(s') && LookedAt(s, Main(ok, sent)) + Unread(s') == Unread(s)
  {
    if Answering(s.pc) {
      AnswerReads(s, s');
    } else if Looking(s.pc) {
      LookReads(s);
    } else {
      ElsewhereReads(s, ok, sent, s');
      ReadsOn(s, s');
    }
  }

  lemma LooksOn(s: State)
    requires Looking(s.pc)
    ensures if Onward(s).RespStart? then Reading(s.pc) == None && At(s.inbox, Onward(s).idx).Some?
            else Reading(Onward(s)) == Reading(s.pc)
  {}

  lemma LookReads(s: State)
    requires Occupied(s) && Looking(s.pc)
    ensures var s' := s.(pc := Onward(s)); Occupied(s') && Unread(s') == Unread(s)
  {
    LooksOn(s);
    if !Onward(s).RespStart? { ReadsOn(s, s.(pc := Onward(s))); }
  }

  lemma StartReads(s: State, idx: bool)
    requires s.pc == RespStart(idx)
    ensures var s' := StartResponse(s, idx); s'.inbox == s.inbox && Reading(s'.pc) == Some(idx) && !s'.pc.RespStart?
  {}

  lemma Looked(s: State, idx: bool, s': State)
    requires Occupied(s) && s.pc == RespStart(idx) && s'.inbox == s.inbox
    requires Reading(s'.pc) == Some(idx) && !s'.pc.RespStart?
    ensures Occupied(s') && multiset(Opt(At(s.inbox, idx))) + Unread(s') == Unread(s)
  {}

  lemma Cleared(s: State, idx: bool)
    requires Occupied(s) && s.pc == RespClear(idx)
    ensures Occupied(ClearResponse(s, idx)) && Unread(ClearResponse(s, idx)) == Unread(s)
  {}

  lemma AnswerReads(s: State, s': State)
    requires Occupied(s) && Answering(s.pc) && s' == AnswerStep(s)
    ensures Occupied(s') && LookedAt(s, GO) + Unread(s') == Unread(s)
  {
    if s.pc.RespStart? {
      StartReads(s, s.pc.idx);
      Looked(s, s.pc.idx, s');
    } else if s.pc.RespClear? {
      Cleared(s, s.pc.idx);
    } else {
      ReadsOn(s, s');
    }
  }

  lemma NotifyFills(b: Inbox, r: Response, b': Inbox)
    requires At(b, !b.respIdx) == None && b' == Put(b, !b.respIdx, Some(r)).(respIdx := !b.respIdx)
    ensures At(b', b'.respIdx) == Some(r) && At(b', !b'.respIdx) == At(b, b.respIdx)
    ensures multiset(Opt(b'.lower)) + multiset(Opt(b'.upper))
         == multiset(Opt(b.lower)) + multiset(Opt(b.upper)) + multiset{r}
  {}

  lemma NotifyAddsUnread(s: State, r: Response, s': State)
    requires Occupied(s) && Allowed(s, NotifyResponse(r)) && s' == Step(s, NotifyResponse(r))
    ensures Occupied(s') && Unread(s') == Unread(s) + multiset{r} && At(s'.inbox, s'.inbox.respIdx) == Some(r)
  {
    NotifyFills(s.inbox, r, s'.inbox);
    if Reading(s.pc).Some? { assert Reading(s.pc).value == s.inbox.respIdx; }
  }

  lemma StepReads(s: State, a: Act, s': State)
    requires Occupied(s) && Allowed(s, a) && s' == Step(s, a)
    ensures Occupied(s')
    ensures LookedAt(s, a) + Unread(s') == Unread(s) + (if a.NotifyResponse? then multiset{a.r} else multiset{})
  {
    if a.Main? { MainReads(s, a.ok, a.sent, s'); }
    if a.NotifyResponse? { NotifyAddsUnread(s, a.r, s'); }
  }

  lemma RegroupResponses(l: multiset<Response>, r: multiset<Response>, u: multiset<Response>, u1: multiset<Response>,
                         u2: multiset<Response>, n: multiset<Response>, more: multiset<Response>)
    requires l + u1 == u + n && r + u2 == u1 + more
    ensures (l + r) + u2 == u + (n + more)
  {
    assert (l + r) + u2 == l + (u1 + more) == (l + u1) + more;
  }

  lemma {:induction false} ReadOnceFrom(s: State, acts: seq<Act>)
    requires Occupied(s) && Possible(s, acts)
    ensures Read(s, acts) + Unread(Run(s, acts)) == Unread(s) + Notified(acts)
    decreases |acts|
  {
    if acts != [] {
      var a, s' := acts[0], Step(s, acts[0]);
      StepReads(s, a, s');
      ReadOnceFrom(s', acts[1..]);
      RegroupResponses(LookedAt(s, a), Read(s', acts[1..]), Unread(s), Unread(s'), Unread(Run(s, acts)),
                       if a.NotifyResponse? then multiset{a.r} else multiset{}, Notified(acts[1..]));
    }
  }

  /** Every response of the card is looked at once, or still waits to be; none is overwritten. */
  lemma ResponsesReadOnce(s: State, before: seq<Act>, acts: seq<Act>)
    requires Reached(s, before) && Possible(s, acts)
    ensures Read(s, acts) + Unread(Run(s, acts)) == Unread(s) + Notified(acts)
  {
    RunOccupied(Init(), before);
    ReadOnceFrom(s, acts);
  }

  lemma {:induction false} RunOccupied(s: State, acts: seq<Act>)
    requires Occupied(s) && Possible(s, acts)
    ensures Occupied(Run(s, acts))
    decreases |acts|
  {
    if acts != [] {
      StepReads(s, acts[0], Step(s, acts[0]));
      RunOccupied(Step(s, acts[0]), acts[1..]);
    }
  }
}
