/** What holds in every reachable state of the command queue and power-save machine. */
module LbsCommandLaws {
  import opened Wrappers
  import opened LbsCommand

  // ---------------------------------------------------------------- the invariant

  function Held(o: Option<nat>): multiset<nat> { if o.Some? then multiset{o.value} else multiset{} }

  /** Where the nodes are, each counted as often as it is listed. */
  function Whereabouts(q: Queues): multiset<nat> {
    multiset(q.free) + multiset(q.pending) + Held(q.cur) + multiset(q.filling) + Held(q.inHand) + multiset(q.done)
  }

  /** Every node is in exactly one place. */
  predicate Conserved(q: Queues) {
    Whereabouts(q) == multiset(ALL_NODES) && q.nodes.Keys == ALL_NODES
  }

  /** The node was put at the head of the queue. */
  predicate Jumped(nodes: map<nat, Node>, id: nat) { id in nodes ==> nodes[id].front }

  /** Only commands that jumped the queue stand before the node. */
  predicate OnlyJumpersBefore(nodes: map<nat, Node>, list: seq<nat>, id: nat) {
    list != [] && (list[0] == id || (Jumped(nodes, list[0]) && OnlyJumpersBefore(nodes, list[1..], id)))
  }

  /** Which commands may go to the card in which power state. */
  predicate GateOpen(cmd: Command, ps: PsState) {
    ps == FullPower || (ps == Awake && (cmd == Rssi || cmd == HostSleepCfg || cmd == PsMode(ExitPs)))
  }

  predicate SleepSafe(s: State) {
    s.power.psstate == Sleep ==> NothingWaits(s.inbox) && s.q.cur == None
  }

  predicate TransferOk(t: Transfer) {
    t.dnld == ResReceived &&
    match t.what
    case Cmd(c) => GateOpen(c, t.ps)
    case Frame => !Asleep(t.ps)
    case ConfirmSleep => t.ps == PreSleep
  }

  predicate WireOk(log: Log) {
    forall i :: 0 <= i < |log.wire| ==> TransferOk(log.wire[i])
  }

  predicate MatchOk(m: Match) {
    m.answered == m.current || m.answered + 0x1_0000 <= m.current
  }

  predicate MatchesOk(log: Log) {
    forall i :: 0 <= i < |log.matches| ==> MatchOk(log.matches[i])
  }

  /** The current command carries the number of the latest submission. */
  predicate CurrentNumbered(q: Queues, seqnum: nat, log: Log) {
    seqnum == log.submissions % 0x1_0000 && (q.cur.Some? ==> SeqnumOf(q, q.cur.value) == seqnum)
  }

  /** The card answers only what was submitted. */
  predicate AnswersOk(b: Inbox, log: Log) {
    && (b.lower.Some? ==> b.lower.value.answers <= log.submissions)
    && (b.upper.Some? ==> b.upper.value.answers <= log.submissions)
  }

  predicate Flags(s: State) {
    && SleepSafe(s) && WireOk(s.log) && MatchesOk(s.log)
    && CurrentNumbered(s.q, s.link.seqnum, s.log) && AnswersOk(s.inbox, s.log)
  }

  predicate Active(s: State) { !Asleep(s.power.psstate) && !s.power.deepSleep && Quiet(s) }

  predicate NextOk(s: State, next: Next) {
    match next
    case ToEvents => s.power.psstate != Sleep
    case ToGate => true
    case ToData => !Asleep(s.power.psstate)
    case ToAnswer(_) => s.power.psstate != Sleep && s.q.cur.Some?
  }

  predicate BeforeGate(next: Next) { next == ToEvents || next == ToGate }

  /** The command may go out to the card now. */
  predicate MayGo(s: State, id: nat) { GateOpen(CmdOf(s.q, id), s.power.psstate) }

  /** What the main thread has established at each point. */
  predicate PcFacts(s: State) {
    match s.pc
    case RespStart(_) => s.power.psstate != Sleep
    case RespCallback(_) => s.power.psstate != Sleep
    case RespAnswer(_) => s.power.psstate != Sleep && s.q.cur.Some?
    case HandleEvent(_) => s.power.psstate != Sleep
    case Confirm1(next) => s.power.psstate == PreSleep && BeforeGate(next)
    case Confirm2(next) => s.power.psstate == PreSleep && Quiet(s) && BeforeGate(next)
    case Confirm3(next) => s.power.psstate == PreSleep && s.q.cur == None && BeforeGate(next)
    case Issue(_, next) => NextOk(s, next)
    case AwaitQueued(_, next) => NextOk(s, next)
    case Exec => Active(s)
    case Peeked(id) => Active(s) && OnlyJumpersBefore(s.q.nodes, s.q.pending, id)
    case Unlink(id) => Active(s) && OnlyJumpersBefore(s.q.nodes, s.q.pending, id) && MayGo(s, id)
    case Submit1(id) => Active(s) && MayGo(s, id)
    case Submit2(id) =>
      !Asleep(s.power.psstate) && !s.power.deepSleep && s.link.dnld == ResReceived && s.q.cur == Some(id) &&
      MayGo(s, id)
    case SubmitFail(id, cmd) => !Asleep(s.power.psstate) && s.q.cur == Some(id) && cmd != DeepSleep
    case Submit3(id, cmd) => !Asleep(s.power.psstate) && (cmd == DeepSleep ==> s.q.cur == Some(id))
    case DataStage => !Asleep(s.power.psstate)
    case _ => true
  }

  predicate PcOk(s: State) {
    (s.q.inHand == if s.pc.Submit1? then Some(s.pc.id) else None) && PcFacts(s)
  }

  predicate Inv(s: State) { Conserved(s.q) && Flags(s) && PcOk(s) }

  // ----------------------------------------------------------------- list lemmas

  lemma {:induction false} RemoveCounts(list: seq<nat>, id: nat)
    ensures multiset(Remove(list, id)) == multiset(list) - multiset{id}
  {
    if list != [] {
      assert list == [list[0]] + list[1..];
      RemoveCounts(list[1..], id);
    }
  }

  lemma {:induction false} RemoveAbsent(list: seq<nat>, id: nat)
    requires id !in list
    ensures Remove(list, id) == list
  {
    if list != [] { RemoveAbsent(list[1..], id); }
  }

  lemma {:induction false} JumpersFrame(nodes: map<nat, Node>, nodes': map<nat, Node>, list: seq<nat>, id: nat)
    requires forall i :: i in list ==> Jumped(nodes', i) == Jumped(nodes, i)
    requires OnlyJumpersBefore(nodes, list, id)
    ensures OnlyJumpersBefore(nodes', list, id)
  {
    if list[0] != id { JumpersFrame(nodes, nodes', list[1..], id); }
  }

  lemma {:induction false} JumpersAppend(nodes: map<nat, Node>, list: seq<nat>, more: seq<nat>, id: nat)
    requires OnlyJumpersBefore(nodes, list, id)
    ensures OnlyJumpersBefore(nodes, list + more, id)
  {
    assert (list + more)[1..] == list[1..] + more;
    if list[0] != id { JumpersAppend(nodes, list[1..], more, id); }
  }

  lemma {:induction false} JumpersPresent(nodes: map<nat, Node>, list: seq<nat>, id: nat)
    requires OnlyJumpersBefore(nodes, list, id)
    ensures id in list
  {
    if list[0] != id { JumpersPresent(nodes, list[1..], id); }
  }

  // ------------------------------------------------------------ one node, one place

  lemma Alone(q: Queues, id: nat)
    requires Conserved(q)
    ensures Whereabouts(q)[id] <= 1
    ensures id in Whereabouts(q) ==> id in q.nodes
  {
    assert Whereabouts(q)[id] == multiset(ALL_NODES)[id];
  }

  lemma CurrentAlone(q: Queues, id: nat)
    requires Conserved(q) && q.cur == Some(id)
    ensures id !in q.free && id !in q.pending && id !in q.filling && id !in q.done && id in q.nodes
    ensures q.inHand != Some(id)
  {
    Alone(q, id);
    assert Held(q.cur)[id] == 1;
  }

  lemma PendingAlone(q: Queues, id: nat)
    requires Conserved(q) && id in q.pending
    ensures id in q.nodes
  {
    Alone(q, id);
    assert multiset(q.pending)[id] >= 1;
  }

  lemma FreeAlone(q: Queues, id: nat)
    requires Conserved(q) && id in q.free
    ensures id !in q.pending && id !in q.filling && id !in q.done && q.cur != Some(id) && id in q.nodes
    ensures q.inHand != Some(id)
  {
    Alone(q, id);
    assert multiset(q.free)[id] >= 1;
  }

  lemma FillingAlone(q: Queues, id: nat)
    requires Conserved(q) && id in q.filling
    ensures id !in q.pending && id !in q.free && id !in q.done && q.cur != Some(id) && id in q.nodes
    ensures q.inHand != Some(id)
  {
    Alone(q, id);
    assert multiset(q.filling)[id] == 1;
  }

  lemma DoneAlone(q: Queues, id: nat)
    requires Conserved(q) && id in q.done
    ensures id !in q.pending && id !in q.free && id !in q.filling && q.cur != Some(id) && id in q.nodes
    ensures q.inHand != Some(id)
  {
    Alone(q, id);
    assert multiset(q.done)[id] == 1;
  }

  lemma InHandAlone(q: Queues, id: nat)
    requires Conserved(q) && q.inHand == Some(id)
    ensures id !in q.pending && id !in q.free && id !in q.filling && q.cur != Some(id) && id in q.nodes
  {
    Alone(q, id);
    assert Held(q.inHand)[id] == 1;
  }

  // -------------------------------------------------------- the list operations

  /** The lists are right but for one node, which is listed nowhere. */
  predicate ListsBut(q: Queues, id: nat) {
    Whereabouts(q) + multiset{id} == multiset(ALL_NODES) && q.nodes.Keys == ALL_NODES
  }

  lemma NotListed(q: Queues, id: nat)
    requires ListsBut(q, id)
    ensures id !in q.pending && id !in q.free && id !in q.done && q.cur != Some(id) && id in q.nodes
  {
    assert (Whereabouts(q) + multiset{id})[id] == multiset(ALL_NODES)[id];
  }

  lemma CleanUpConserved(q: Queues, id: nat)
    requires ListsBut(q, id)
    ensures Conserved(CleanUpAndInsert(q, id))
  {
    NotListed(q, id);
    var q' := CleanUpAndInsert(q, id);
    assert q'.nodes.Keys == ALL_NODES;
  }

  /** A node with only jumpers before it leaves the queue. */
  lemma LeavePendingConserved(q: Queues, id: nat)
    requires Conserved(q) && OnlyJumpersBefore(q.nodes, q.pending, id)
    ensures ListsBut(LeavePending(q, id), id)
  {
    JumpersPresent(q.nodes, q.pending, id);
    RemoveCounts(q.pending, id);
  }

  lemma UnlinkConserved(q: Queues, id: nat)
    requires Conserved(q) && OnlyJumpersBefore(q.nodes, q.pending, id) && q.inHand == None
    ensures Conserved(LeavePending(q, id).(inHand := Some(id)))
  {
    LeavePendingConserved(q, id);
  }

  /** The node leaves the place it is in: it is current, or it has only jumpers before it in the queue. */
  predicate CanComplete(q: Queues, id: nat) {
    q.cur == Some(id) || (q.cur == None && OnlyJumpersBefore(q.nodes, q.pending, id))
  }

  function Taken(q: Queues, id: nat): Queues {
    q.(pending := Remove(q.pending, id), cur := None, h := Finished(q, id))
  }

  lemma TakenConserved(q: Queues, id: nat)
    requires Conserved(q) && CanComplete(q, id)
    ensures ListsBut(Taken(q, id), id)
  {
    if q.cur == Some(id) {
      CurrentAlone(q, id);
      RemoveAbsent(q.pending, id);
    } else {
      LeavePendingConserved(q, id);
    }
  }

  lemma CompleteWaited(q: Queues, id: nat)
    requires id !in q.free && Waited(q, id)
    ensures Complete(q, id) == Taken(q, id).(done := q.done + {id})
  {
    RemoveAbsent(q.free, id);
    assert q.free + [] == q.free;
  }

  lemma CompleteUnwaited(q: Queues, id: nat)
    requires id !in q.free && !Waited(q, id)
    ensures Complete(q, id) == CleanUpAndInsert(Taken(q, id), id)
  {
    RemoveAbsent(q.free, id);
  }

  lemma DoneConserved(q: Queues, id: nat)
    requires ListsBut(q, id)
    ensures Conserved(q.(done := q.done + {id}))
  {
    NotListed(q, id);
    assert multiset(q.done + {id}) == multiset(q.done) + multiset{id};
  }

  /** Completing a command, the current one or an ignored one at the head of the queue, moves its
      node to the free list, clean, or to its caller. */
  lemma CompleteConserved(q: Queues, id: nat)
    requires Conserved(q) && CanComplete(q, id)
    ensures Conserved(Complete(q, id))
  {
    TakenConserved(q, id);
    NotListed(Taken(q, id), id);
    if Waited(q, id) {
      CompleteWaited(q, id);
      DoneConserved(Taken(q, id), id);
    } else {
      CompleteUnwaited(q, id);
      CleanUpConserved(Taken(q, id), id);
    }
  }

  lemma FillConserved(q: Queues, cmd: Command, waited: bool)
    requires Conserved(q) && q.free != []
    ensures Conserved(Fill(q, cmd, waited)) && q.free[0] !in q.pending
  {
    var id := q.free[0];
    FreeAlone(q, id);
    assert q.free == [id] + q.free[1..];
    assert multiset(q.filling + {id}) == multiset(q.filling) + multiset{id};
    assert Fill(q, cmd, waited).nodes.Keys == ALL_NODES;
  }

  lemma ChooseConserved(q: Queues, id: nat, ps: PsState)
    requires Conserved(q) && id in q.nodes && id in q.filling
    ensures Conserved(ChoosePlace(q, id, ps))
  {
    var q' := ChoosePlace(q, id, ps);
    FillingAlone(q, id);
    assert q'.nodes.Keys == ALL_NODES;
  }

  lemma InsertConserved(q: Queues, id: nat)
    requires Conserved(q) && Placed(q, id)
    ensures Conserved(InsertPending(q, id))
  {
    var q' := InsertPending(q, id);
    assert multiset(q.filling) == multiset(q.filling - {id}) + multiset{id};
    assert multiset(q'.pending) == multiset(q.pending) + multiset{id};
    assert q'.nodes.Keys == q.nodes.Keys;
  }

  lemma ReturnConserved(q: Queues, id: nat)
    requires Conserved(q) && id in q.done
    ensures Conserved(CleanUpAndInsert(q.(done := q.done - {id}), id))
  {
    assert multiset(q.done) == multiset(q.done - {id}) + multiset{id};
    CleanUpConserved(q.(done := q.done - {id}), id);
  }

  lemma MakeCurrentConserved(q: Queues, id: nat, n: nat)
    requires Conserved(q) && q.inHand == Some(id) && q.cur == None && id in q.nodes
    ensures Conserved(MakeCurrent(q, id, n))
  {
    var q' := MakeCurrent(q, id, n);
    assert q'.nodes.Keys == ALL_NODES;
  }

  // ------------------------------------------------------- steps of the main thread

  /** The main thread only looks at something and moves on. */
  lemma Moved(s: State, pc: Pc)
    requires Inv(s) && PcOk(s.(pc := pc))
    ensures Inv(s.(pc := pc))
  {}

  lemma AfterOk(s: State, next: Next)
    requires NextOk(s, next) && s.q.inHand == None
    ensures PcOk(s.(pc := After(next)))
  {}

  lemma TopOk(s: State)
    requires Inv(s) && (s.pc.Top? || s.pc.AfterEvents?)
    ensures PcOk(s.(pc := Onward(s)))
  {}

  lemma GateOk(s: State)
    requires Inv(s) && s.pc.Gate?
    ensures PcOk(s.(pc := Onward(s)))
  {}

  lemma ExecOk(s: State)
    requires Inv(s) && s.pc.Exec?
    ensures PcOk(s.(pc := NextCommand(s)))
  {}

  lemma Confirm1Ok(s: State, next: Next)
    requires Inv(s) && s.pc == Confirm1(next)
    ensures PcOk(s.(pc := Onward(s)))
  {
    AfterOk(s, next);
  }

  lemma AwaitOk(s: State, id: nat, next: Next)
    requires Inv(s) && s.pc == AwaitQueued(id, next)
    ensures PcOk(s.(pc := Onward(s)))
  {
    AfterOk(s, next);
  }

  lemma IssueKeeps(s: State, cmd: Command, next: Next)
    requires Inv(s) && s.pc == Issue(cmd, next)
    ensures Inv(IssueStep(s, cmd, next))
  {
    if CanIssue(s) {
      FillConserved(s.q, cmd, false);
      FreeAlone(s.q, s.q.free[0]);
    }
  }

  lemma TakeEventKeeps(s: State)
    requires Inv(s) && s.pc == EventLoop
    ensures Inv(TakeEvent(s))
  {}

  lemma ClearKeeps(s: State, idx: bool)
    requires Inv(s) && s.pc == RespClear(idx)
    ensures Inv(ClearResponse(s, idx))
  {}

  lemma CheckPreSleepKeeps(s: State)
    requires Inv(s) && s.pc == PreSleepCheck
    ensures Inv(CheckPreSleep(s))
  {}

  lemma ClearTimeoutKeeps(s: State)
    requires Inv(s) && s.pc == TimeoutClear
    ensures Inv(ClearTimeout(s))
  {}

  lemma SendConfirmKeeps(s: State, next: Next, ok: bool, sent: bool)
    requires Inv(s) && s.pc == Confirm2(next)
    ensures Inv(SendConfirm(s, next, ok, sent))
  {}

  lemma FallAsleepKeeps(s: State, next: Next)
    requires Inv(s) && s.pc == Confirm3(next)
    ensures Inv(FallAsleep(s, next))
  {}

  lemma DataKeeps(s: State, ok: bool)
    requires Inv(s) && s.pc == DataStage
    ensures Inv(SendData(s, ok))
  {}

  lemma EventKeeps(s: State, e: CardEvent)
    requires Inv(s) && s.pc == HandleEvent(e)
    ensures Inv(ProcessEvent(s, e))
  {}

  /** After a completion no command is current. */
  lemma CompleteIfConserved(q: Queues, id: Option<nat>, condition: bool)
    requires Conserved(q)
    requires condition && id.Some? ==> CanComplete(q, id.value)
    ensures Conserved(CompleteIf(q, id, condition))
    ensures CompleteIf(q, id, condition).inHand == q.inHand
    ensures CompleteIf(q, id, condition) == q || CompleteIf(q, id, condition).cur == None
    ensures condition && id.Some? ==> CompleteIf(q, id, condition).cur == None
  {
    if condition && id.Some? { CompleteConserved(q, id.value); }
  }

  lemma FinishCurrentKeeps(s: State, condition: bool, pc: Pc)
    requires Inv(s) && (pc.RespClear? || pc.TimeoutClear?) && !s.pc.Submit1?
    ensures Inv(FinishCurrent(s, condition, pc))
  {
    CompleteIfConserved(s.q, s.q.cur, condition);
  }

  lemma PeekedKeeps(s: State, id: nat)
    requires Inv(s) && s.pc == Peeked(id)
    ensures Inv(ConsiderCommand(s, id))
  {
    CompleteIfConserved(s.q, Some(id), Consider(CmdOf(s.q, id), s.power.psstate) == Ignore);
  }

  lemma UnlinkKeeps(s: State, id: nat)
    requires Inv(s) && s.pc == Unlink(id)
    ensures Inv(UnlinkStep(s, id))
  {
    UnlinkConserved(s.q, id);
    var q' := LeavePending(s.q, id).(inHand := Some(id));
    assert CmdOf(q', id) == CmdOf(s.q, id) && q'.cur == s.q.cur;
  }

  lemma NextNumber(n: nat, sn: nat)
    requires sn == n % 0x1_0000
    ensures NextSeqnum(sn) == (n + 1) % 0x1_0000
  {}

  lemma SubmitFlags(s: State, id: nat, n: nat)
    requires Inv(s) && s.pc == Submit1(id) && id in s.q.nodes && n == (s.log.submissions + 1) % 0x1_0000
    ensures Flags(Submit(s, id, n))
  {}

  lemma SubmitPc(s: State, id: nat, n: nat)
    requires Inv(s) && s.pc == Submit1(id) && id in s.q.nodes
    ensures PcOk(Submit(s, id, n))
  {
    assert CmdOf(MakeCurrent(s.q, id, n), id) == CmdOf(s.q, id);
  }

  lemma SubmitNumberKeeps(s: State, id: nat, n: nat)
    requires Inv(s) && s.pc == Submit1(id) && id in s.q.nodes && n == (s.log.submissions + 1) % 0x1_0000
    ensures Inv(Submit(s, id, n))
  {
    MakeCurrentConserved(s.q, id, n);
    SubmitFlags(s, id, n);
    SubmitPc(s, id, n);
  }

  lemma SubmitKeeps(s: State, id: nat, n: nat)
    requires Inv(s) && s.pc == Submit1(id) && n == NextSeqnum(s.link.seqnum)
    ensures id in s.q.nodes && Inv(Submit(s, id, n))
  {
    InHandAlone(s.q, id);
    NextNumber(s.log.submissions, s.link.seqnum);
    SubmitNumberKeeps(s, id, n);
  }

  lemma SendCommandKeeps(s: State, id: nat, ok: bool, sent: bool)
    requires Inv(s) && s.pc == Submit2(id) && (CmdOf(s.q, id) == DeepSleep ==> ok)
    ensures Inv(SendCommand(s, id, ok, sent))
  {}

  /** A command is completed on the way to the data stage, and nothing else of interest changes. */
  lemma CompletedKeeps(s: State, id: nat, s': State)
    requires Inv(s) && s.q.cur == Some(id) && s.q.inHand == None && !Asleep(s.power.psstate)
    requires s'.q == Complete(s.q, id) && s'.power.psstate == s.power.psstate && s'.inbox == s.inbox && s'.log == s.log
    requires s'.link.seqnum == s.link.seqnum && (s'.pc.DataStage? || (s'.pc.Submit3? && s'.pc.cmd != DeepSleep))
    ensures Inv(s')
  {
    CompleteConserved(s.q, id);
  }

  lemma FailCommandKeeps(s: State, id: nat, cmd: Command)
    requires Inv(s) && s.pc == SubmitFail(id, cmd)
    ensures Inv(FailCommand(s, id, cmd))
  {
    CompletedKeeps(s, id, FailCommand(s, id, cmd));
  }

  lemma SubmittedKeeps(s: State, id: nat, cmd: Command)
    requires Inv(s) && s.pc == Submit3(id, cmd)
    ensures Inv(Submitted(s, id, cmd))
  {
    if cmd == DeepSleep {
      CompletedKeeps(s, id, Submitted(s, id, cmd));
    } else {
      assert Submitted(s, id, cmd) == s.(pc := DataStage);
    }
  }

  lemma SameWrap(answered: nat, current: nat)
    requires answered <= current && answered % 0x1_0000 == current % 0x1_0000
    ensures answered == current || answered + 0x1_0000 <= current
  {}

  lemma MatchLogged(log: Log, r: Response)
    requires MatchesOk(log) && r.answers <= log.submissions && r.answers % 0x1_0000 == log.submissions % 0x1_0000
    ensures MatchesOk(log.(matches := log.matches + [Match(log.submissions, r.answers, r.ps, r.ok)]))
  {
    SameWrap(r.answers, log.submissions);
  }

  lemma TakeAnswerFlags(s: State, idx: bool, r: Response)
    requires Inv(s) && s.pc == RespStart(idx) && At(s.inbox, idx) == Some(r) && Accepted(s.q, r)
    ensures Flags(TakeAnswer(s, idx, r))
  {
    MatchLogged(s.log, r);
    CompleteIfConserved(s.q, s.q.cur, !MustWake(s.settings, r) && !Callback(r));
  }

  lemma TakeAnswerPc(s: State, idx: bool, r: Response)
    requires Inv(s) && s.pc == RespStart(idx) && At(s.inbox, idx) == Some(r) && Accepted(s.q, r)
    ensures PcOk(TakeAnswer(s, idx, r))
  {
    CompleteIfConserved(s.q, s.q.cur, !MustWake(s.settings, r) && !Callback(r));
  }

  lemma TakeAnswerKeeps(s: State, idx: bool, r: Response)
    requires Inv(s) && s.pc == RespStart(idx) && At(s.inbox, idx) == Some(r) && Accepted(s.q, r)
    ensures Inv(TakeAnswer(s, idx, r))
  {
    TakeAnswerFlags(s, idx, r);
    TakeAnswerPc(s, idx, r);
    CompleteIfConserved(s.q, s.q.cur, !MustWake(s.settings, r) && !Callback(r));
  }

  lemma StartResponseKeeps(s: State, idx: bool)
    requires Inv(s) && s.pc == RespStart(idx)
    ensures Inv(StartResponse(s, idx))
  {
    if At(s.inbox, idx).Some? && Accepted(s.q, At(s.inbox, idx).value) {
      TakeAnswerKeeps(s, idx, At(s.inbox, idx).value);
    } else {
      Moved(s, RespClear(idx));
    }
  }

  lemma OnwardKeeps(s: State)
    requires Inv(s)
    requires s.pc.Top? || s.pc.Confirm1? || s.pc.AwaitQueued? || s.pc.AfterEvents? || s.pc.Gate? || s.pc.Exec?
    ensures Inv(s.(pc := Onward(s)))
  {
    match s.pc {
      case Confirm1(next) => Confirm1Ok(s, next);
      case AwaitQueued(id, next) => AwaitOk(s, id, next);
      case Gate => GateOk(s);
      case Exec => ExecOk(s);
      case _ => TopOk(s);
    }
    Moved(s, Onward(s));
  }

  // The parts of the main thread's loop

  lemma AnswerKeeps(s: State, s': State)
    requires Inv(s) && Answering(s.pc) && s' == AnswerStep(s)
    ensures Inv(s')
  {
    match s.pc
    case RespStart(idx) => StartResponseKeeps(s, idx);
    case RespCallback(idx) => FinishCurrentKeeps(s, true, RespClear(idx));
    case RespAnswer(idx) => FinishCurrentKeeps(s, true, RespClear(idx));
    case RespClear(idx) => ClearKeeps(s, idx);
  }

  lemma DetourKeeps(s: State, ok: bool, sent: bool, s': State)
    requires Inv(s) && Detouring(s.pc) && s' == DetourStep(s, ok, sent)
    ensures Inv(s')
  {
    match s.pc
    case HandleEvent(e) => EventKeeps(s, e);
    case Confirm2(next) => SendConfirmKeeps(s, next, ok, sent);
    case Confirm3(next) => FallAsleepKeeps(s, next);
    case Issue(cmd, next) => IssueKeeps(s, cmd, next);
  }

  lemma CheckKeeps(s: State, s': State)
    requires Inv(s) && Checking(s.pc) && s' == CheckStep(s)
    ensures Inv(s')
  {
    match s.pc
    case EventLoop => TakeEventKeeps(s);
    case TimeoutCheck => FinishCurrentKeeps(s, s.link.cmdTimedOut, TimeoutClear);
    case TimeoutClear => ClearTimeoutKeeps(s);
    case PreSleepCheck => CheckPreSleepKeeps(s);
  }

  lemma ChooseKeeps(s: State, s': State)
    requires Inv(s) && Choosing(s.pc) && s' == ChooseStep(s)
    ensures Inv(s')
  {
    match s.pc
    case Peeked(id) => PeekedKeeps(s, id);
    case Unlink(id) => UnlinkKeeps(s, id);
    case Submit1(id) => SubmitKeeps(s, id, NextSeqnum(s.link.seqnum));
  }

  lemma SendKeeps(s: State, ok: bool, sent: bool, s': State)
    requires Inv(s) && Sending(s.pc) && Enabled(s, Main(ok, sent)) && s' == SendStep(s, ok, sent)
    ensures Inv(s')
  {
    match s.pc
    case Submit2(id) => SendCommandKeeps(s, id, ok, sent);
    case SubmitFail(id, cmd) => FailCommandKeeps(s, id, cmd);
    case Submit3(id, cmd) => SubmittedKeeps(s, id, cmd);
    case DataStage => DataKeeps(s, ok);
  }

  lemma MainKeeps(s: State, ok: bool, sent: bool, s': State)
    requires Inv(s) && Enabled(s, Main(ok, sent)) && s' == MainStep(s, ok, sent)
    ensures Inv(s')
  {
    if Answering(s.pc) {
      AnswerKeeps(s, s');
    } else if Detouring(s.pc) {
      DetourKeeps(s, ok, sent, s');
    } else if Checking(s.pc) {
      CheckKeeps(s, s');
    } else if Choosing(s.pc) {
      ChooseKeeps(s, s');
    } else if Sending(s.pc) {
      SendKeeps(s, ok, sent, s');
    } else {
      OnwardKeeps(s);
    }
  }

  // ------------------------------------------------------------------ other actors

  predicate SameCommand(q: Queues, q': Queues, id: nat) {
    CmdOf(q', id) == CmdOf(q, id) && SeqnumOf(q', id) == SeqnumOf(q, id)
  }

  /** The node at the head of the queue that the main thread is considering. */
  function Considered(pc: Pc): Option<nat> {
    if pc.Peeked? || pc.Unlink? then Some(pc.id) else None
  }

  /** What the main thread relies on about the nodes. */
  predicate Undisturbed(s: State, q': Queues) {
    && q'.cur == s.q.cur && q'.inHand == s.q.inHand
    && (s.q.cur.Some? ==> SameCommand(s.q, q', s.q.cur.value))
    && (s.q.inHand.Some? ==> SameCommand(s.q, q', s.q.inHand.value))
    && (Considered(s.pc).Some? ==>
          SameCommand(s.q, q', Considered(s.pc).value) &&
          OnlyJumpersBefore(q'.nodes, q'.pending, Considered(s.pc).value))
  }

  /** A step of another actor on nodes of its own keeps the invariant. */
  lemma OthersKeep(s: State, q': Queues)
    requires Inv(s) && Conserved(q') && Undisturbed(s, q')
    ensures Inv(s.(q := q'))
  {}

  /** Only a node changes that is not on its way to the card. */
  lemma ChangeElsewhere(s: State, q': Queues, id: nat)
    requires Inv(s) && id !in s.q.pending && s.q.cur != Some(id) && s.q.inHand != Some(id)
    requires q'.cur == s.q.cur && q'.inHand == s.q.inHand && q'.pending == s.q.pending
    requires id in s.q.nodes && id in q'.nodes && q'.nodes == s.q.nodes[id := q'.nodes[id]]
    ensures Undisturbed(s, q')
  {
    if Considered(s.pc).Some? {
      JumpersPresent(s.q.nodes, s.q.pending, Considered(s.pc).value);
      JumpersFrame(s.q.nodes, q'.nodes, s.q.pending, Considered(s.pc).value);
    }
  }

  lemma CallKeeps(s: State, cmd: Command, waited: bool)
    requires Inv(s) && CanIssue(s)
    ensures Inv(s.(q := Fill(s.q, cmd, waited)))
  {
    var q' := Fill(s.q, cmd, waited);
    FillConserved(s.q, cmd, waited);
    FreeAlone(s.q, s.q.free[0]);
    ChangeElsewhere(s, q', s.q.free[0]);
    OthersKeep(s, q');
  }

  lemma PlaceKeeps(s: State, id: nat)
    requires Inv(s) && id in s.q.filling && id in s.q.nodes
    ensures Inv(s.(q := ChoosePlace(s.q, id, s.power.psstate)))
  {
    var q' := ChoosePlace(s.q, id, s.power.psstate);
    ChooseConserved(s.q, id, s.power.psstate);
    FillingAlone(s.q, id);
    ChangeElsewhere(s, q', id);
    OthersKeep(s, q');
  }

  lemma InsertUndisturbed(s: State, id: nat)
    requires Inv(s) && Placed(s.q, id)
    ensures Undisturbed(s, InsertPending(s.q, id))
  {
    var q' := InsertPending(s.q, id);
    FillingAlone(s.q, id);
    ChangeElsewhere(s, q'.(pending := s.q.pending), id);
    if Considered(s.pc).Some? {
      if s.q.nodes[id].front {
        assert q'.pending[1..] == s.q.pending;
      } else {
        JumpersAppend(q'.nodes, s.q.pending, [id], Considered(s.pc).value);
      }
    }
  }

  lemma InsertKeeps(s: State, id: nat)
    requires Inv(s) && Placed(s.q, id)
    ensures Inv(s.(q := InsertPending(s.q, id)))
  {
    InsertConserved(s.q, id);
    InsertUndisturbed(s, id);
    OthersKeep(s, InsertPending(s.q, id));
  }

  lemma CleanUpKeeps(s: State, id: nat)
    requires Inv(s) && id in s.q.done
    ensures Inv(s.(q := CleanUpAndInsert(s.q.(done := s.q.done - {id}), id)))
  {
    var q' := CleanUpAndInsert(s.q.(done := s.q.done - {id}), id);
    ReturnConserved(s.q, id);
    DoneAlone(s.q, id);
    ChangeElsewhere(s, q', id);
    OthersKeep(s, q');
  }

  lemma QueueEventKeeps(s: State, e: CardEvent)
    requires Inv(s)
    ensures Inv(s.(power := WakeUp(s.power), inbox := s.inbox.(events := s.inbox.events + [e])))
  {}

  lemma NotifyKeeps(s: State, r: Response)
    requires Inv(s) && r.answers <= s.log.submissions
    ensures Inv(s.(power := WakeUp(s.power),
                   inbox := Put(s.inbox, !s.inbox.respIdx, Some(r)).(respIdx := !s.inbox.respIdx)))
  {}

  /** Interrupts and timers only free the interface. */
  lemma LinkKeeps(s: State, link: Link)
    requires Inv(s) && link.seqnum == s.link.seqnum && (link.dnld == s.link.dnld || link.dnld == ResReceived)
    ensures Inv(s.(link := link))
  {}

  lemma UserKeeps(s: State, settings: Settings, wakeupDev: bool)
    requires Inv(s)
    ensures Inv(s.(settings := settings, power := s.power.(wakeupDev := wakeupDev)))
  {}

  lemma CallerKeeps(s: State, a: Act, s': State)
    requires Inv(s) && Enabled(s, a) && s' == Step(s, a) && (a.Call? || a.Place? || a.Insert? || a.CleanUp?)
    ensures Inv(s')
  {
    match a
    case Call(cmd, waited) => if CanIssue(s) { CallKeeps(s, cmd, waited); }
    case Place(id) => PlaceKeeps(s, id);
    case Insert(id) => InsertKeeps(s, id);
    case CleanUp(id) => CleanUpKeeps(s, id);
  }

  lemma InterruptKeeps(s: State, a: Act, s': State)
    requires Inv(s) && Enabled(s, a) && s' == Step(s, a) && (a.QueueEvent? || a.NotifyResponse?)
    ensures Inv(s')
  {
    match a
    case QueueEvent(e) => QueueEventKeeps(s, e);
    case NotifyResponse(r) => NotifyKeeps(s, r);
  }

  /** Every step of every actor keeps the invariant. */
  lemma StepKeepsInv(s: State, a: Act, s': State)
    requires Inv(s) && Enabled(s, a) && s' == Step(s, a)
    ensures Inv(s')
  {
    if a.Main? {
      MainKeeps(s, a.ok, a.sent, s');
    } else if a.Call? || a.Place? || a.Insert? || a.CleanUp? {
      CallerKeeps(s, a, s');
    } else if a.QueueEvent? || a.NotifyResponse? {
      InterruptKeeps(s, a, s');
    } else if a.User? {
      UserKeeps(s, a.settings, a.wakeupDev);
    } else {
      LinkKeeps(s, s'.link);
    }
  }

  lemma InitInv()
    ensures Inv(Init())
  {
    InitConserved();
  }

  lemma InitConserved()
    ensures Conserved(Init().q)
  {
    var q := Init().q;
    OnceEach();
    assert q.nodes.Keys == ALL_NODES;
    NothingElsewhere(q);
  }

  lemma NothingElsewhere(q: Queues)
    requires q.pending == [] && q.cur == None && q.filling == {} && q.inHand == None && q.done == {}
    ensures Whereabouts(q) == multiset(q.free)
  {}

  /** A list without repetitions holds each of its elements once. */
  lemma {:induction false} Once(s: seq<nat>, n: nat)
    requires forall i, j :: 0 <= i < j < |s| ==> s[i] != s[j]
    ensures multiset(s)[n] == if n in s then 1 else 0
  {
    if s != [] {
      assert s == [s[0]] + s[1..];
      Once(s[1..], n);
    }
  }

  lemma OnceEach()
    ensures multiset([0, 1, 2, 3, 4, 5, 6, 7, 8, 9]) == multiset(ALL_NODES)
  {
    var all: seq<nat> := [0, 1, 2, 3, 4, 5, 6, 7, 8, 9];
    forall n: nat ensures multiset(all)[n] == multiset(ALL_NODES)[n] { Once(all, n); }
  }

  lemma {:induction false} RunKeepsInv(s: State, acts: seq<Act>)
    requires Inv(s) && Possible(s, acts)
    ensures Inv(Run(s, acts))
    decreases |acts|
  {
    if acts != [] {
      StepKeepsInv(s, acts[0], Step(s, acts[0]));
      RunKeepsInv(Step(s, acts[0]), acts[1..]);
    }
  }
}
