/**
 The firmware command queue and power-save machine of the libertas driver as a state machine.
 The actors are the main thread (with a program counter), any number of command callers, the card's
 interrupts and the timers. A step of anyone but the main thread is one region under `driver_lock` or
 one access outside it. A step of the main thread is one region, or a stretch of accesses outside the
 lock that is merged: Gate, PreSleepCheck and Peeked read several fields one after the other, and
 HandleEvent reads and writes several, for Disconnected with a sleep of a second in between. What
 makes the merged reads harmless is that outside the main thread the power state only goes from SLEEP
 to AWAKE, an interface under way only becomes free, and cur_cmd does not change (OthersOnlyWake in
 LbsCommandRuns); so a sequence of reads finds what a single one would have found at one of its
 moments (GateReadsOnce).
 */
module LbsCommand {
  import opened Wrappers

  const ALL_NODES: set<nat> := {0, 1, 2, 3, 4, 5, 6, 7, 8, 9}  // LBS_NUM_CMD_BUFFERS of them

  datatype PsState = FullPower | Awake | PreSleep | Sleep
  datatype Dnld = ResReceived | DataSent | CmdSent
  datatype PsAction = EnterPs | ExitPs | OtherPs

  datatype Command =
    | PsMode(action: PsAction) | Rssi | HostSleepCfg | WakeupConfirm | DeepSleep
    | Plain(code: nat)

  /** A command node: its buffer, whether a caller sleeps on it, the place in the queue chosen for
      it, and, for the history, the ticket it drew when it joined the queue. */
  datatype Node = Node(cmd: Command, waited: bool, seqnum: nat, placed: bool, front: bool, ticket: nat)

  const CLEAN := Node(Plain(0), false, 0, false, false, 0)

  /** A response of the card. `answers` is the submission the card is answering; it echoes that
      submission's sequence number. `fits` is the outcome of comparing the command codes. */
  datatype Response = Response(answers: nat, fits: bool, defer: bool, ok: bool, ps: Option<PsAction>)

  datatype CardEvent = Disconnected | PsSleep | PsAwake | HostAwake | DsAwake | OtherEvent

  /** What comes from the card: the two response buffers, the index of the one to read (a length that
      is not zero is a response), and the event fifo. */
  datatype Inbox = Inbox(lower: Option<Response>, upper: Option<Response>, respIdx: bool, events: seq<CardEvent>)

  /** What was handed to the card, and the state it was handed over in. */
  datatype Payload = Cmd(cmd: Command) | Frame | ConfirmSleep
  datatype Transfer = Transfer(what: Payload, ps: PsState, dnld: Dnld)

  /** A response taken as the answer to the current command: which submission the current command
      is, which one the card answered, and what the card said. */
  datatype Match = Match(current: nat, answered: nat, ps: Option<PsAction>, ok: bool)

  /** Where the main thread goes on after a detour. */
  datatype Next = ToEvents | ToGate | ToData | ToAnswer(idx: bool)

  datatype Pc =
    | Top                                     // main.c:511
    | RespStart(idx: bool)                    // lbs_process_command_response
    | RespCallback(idx: bool)                 // cmdresp.c:203-216
    | RespAnswer(idx: bool)                   // cmdresp.c:175
    | RespClear(idx: bool)                    // main.c:519-521
    | EventLoop                               // main.c:524-537
    | HandleEvent(e: CardEvent)               // lbs_process_event
    | Confirm1(next: Next)                    // lbs_ps_confirm_sleep
    | Confirm2(next: Next)                    // lbs_send_confirmsleep, the transfer
    | Confirm3(next: Next)                    // cmd.c:1376-1390
    | Issue(cmd: Command, next: Next)         // __lbs_cmd_async from the main thread
    | AwaitQueued(id: nat, next: Next)        // the rest of that call
    | AfterEvents                             // main.c:539-545
    | TimeoutCheck                            // main.c:547-559
    | TimeoutClear                            // main.c:560-563
    | PreSleepCheck                           // main.c:565-585
    | Gate                                    // main.c:590-598
    | Exec                                    // cmd.c:1238-1253
    | Peeked(id: nat)                         // cmd.c:1255-1334
    | Unlink(id: nat)                         // cmd.c:1335-1337
    | Submit1(id: nat)                        // cmd.c:943-947
    | Submit2(id: nat)                        // cmd.c:960
    | SubmitFail(id: nat, cmd: Command)       // cmd.c:962-968
    | Submit3(id: nat, cmd: Command)          // cmd.c:970-980
    | DataStage                               // main.c:601-624

  /** A command that joined the queue, and at which end */
  datatype Entry = Entry(cmd: Command, front: bool)

  /** History of the commands: those that joined the queue, in order; a command's ticket is its place
      among them. Then the tickets of those that left the queue, were submitted, and were completed. */
  datatype History = History(entered: seq<Entry>, left: seq<nat>, submitted: seq<nat>, completed: seq<nat>)

  /** The command nodes and every place they can be in. */
  datatype Queues = Queues(
    free: seq<nat>, pending: seq<nat>, cur: Option<nat>,  // cmdfreeq, cmdpendingq, cur_cmd
    nodes: map<nat, Node>,
    filling: set<nat>,    // nodes a caller is filling and queueing
    inHand: Option<nat>,  // taken off the queue by the main thread and not yet current
    done: set<nat>,       // completed nodes whose caller has not yet cleaned them up
    h: History)

  /** History: how many commands were submitted, what went to the card, what was taken as an answer. */
  datatype Log = Log(submissions: nat, wire: seq<Transfer>, matches: seq<Match>)

  datatype Power = Power(psstate: PsState, needToWakeup: bool, deepSleep: bool, wakeupDev: bool)

  /** What users and the rest of the driver set */
  datatype Settings = Settings(psCam: bool, connected: bool, monitor: bool, autoDeepSleep: bool, fwReady: bool)

  /** The interface to the card */
  datatype Link = Link(dnld: Dnld, seqnum: nat, cmdTimedOut: bool, txPending: bool)

  datatype State = State(q: Queues, power: Power, settings: Settings, link: Link, inbox: Inbox, pc: Pc, log: Log)

  /** What can happen next. `ok` and `sent` are the outcome of a transfer to the card: whether the
      bus driver succeeded, and whether it marked the transfer before it failed. */
  datatype Act =
    | Main(ok: bool, sent: bool)
    | Call(cmd: Command, waited: bool)
    | Place(id: nat)
    | Insert(id: nat)
    | CleanUp(id: nat)
    | QueueEvent(e: CardEvent)
    | NotifyResponse(r: Response)
    | HostToCardDone
    | CmdTimeout
    | TxLockup
    | LineUpPacket(pending: bool)
    | User(settings: Settings, wakeupDev: bool)

  function Init(): State {
    State(Queues([0, 1, 2, 3, 4, 5, 6, 7, 8, 9], [], None, map id | id in ALL_NODES :: CLEAN, {}, None, {},
                 History([], [], [], [])),
          Power(FullPower, false, false, false), Settings(true, false, false, false, false),
          Link(ResReceived, 0, false, false), Inbox(None, None, false, []), Top, Log(0, [], []))
  }

  // ------------------------------------------------------------- list operations

  /** `list_del_init`: takes a node off the list it is on, if it is on this one. */
  function Remove(list: seq<nat>, id: nat): seq<nat> {
    if list == [] then [] else if list[0] == id then list[1..] else [list[0]] + Remove(list[1..], id)
  }

  predicate Waited(q: Queues, id: nat) { id in q.nodes && q.nodes[id].waited }

  function CmdOf(q: Queues, id: nat): Command {
    if id in q.nodes then q.nodes[id].cmd else Plain(0)
  }

  function SeqnumOf(q: Queues, id: nat): nat {
    if id in q.nodes then q.nodes[id].seqnum else 0
  }

  function TicketOf(nodes: map<nat, Node>, id: nat): nat {
    if id in nodes then nodes[id].ticket else 0
  }

  /** The history once a node has been taken off whatever list it was on */
  function Departed(q: Queues, id: nat): History {
    if id in q.pending then q.h.(left := q.h.left + [TicketOf(q.nodes, id)]) else q.h
  }

  /** And once it has been completed */
  function Finished(q: Queues, id: nat): History {
    Departed(q, id).(completed := q.h.completed + [TicketOf(q.nodes, id)])
  }

  /** A node leaves the pending queue, wherever in it it stands. */
  function LeavePending(q: Queues, id: nat): Queues {
    q.(pending := Remove(q.pending, id), h := Departed(q, id))
  }

  /** `__lbs_cleanup_and_insert_cmd` */
  function CleanUpAndInsert(q: Queues, id: nat): Queues {
    q.(nodes := q.nodes[id := CLEAN], free := q.free + [id])
  }

  /** `__lbs_complete_command` */
  function Complete(q: Queues, id: nat): Queues {
    q.(cur := None,
       pending := Remove(q.pending, id), h := Finished(q, id),
       free := Remove(q.free, id) + (if Waited(q, id) then [] else [id]),
       nodes := if Waited(q, id) then q.nodes else q.nodes[id := CLEAN],
       done := if Waited(q, id) then q.done + {id} else q.done)
  }

  /** `lbs_get_free_cmd_node` and the filling of the node it returns */
  function Fill(q: Queues, cmd: Command, waited: bool): Queues
    requires q.free != []
  {
    q.(free := q.free[1..], filling := q.filling + {q.free[0]},
       nodes := q.nodes[q.free[0] := Node(cmd, waited, 0, false, false, 0)])
  }

  /** The place `lbs_queue_cmd` chooses, from the power state it reads outside the lock. */
  predicate ToHead(cmd: Command, ps: PsState) {
    (cmd == PsMode(ExitPs) && ps != FullPower) || cmd == WakeupConfirm
  }

  function ChoosePlace(q: Queues, id: nat, ps: PsState): Queues
    requires id in q.nodes
  {
    q.(nodes := q.nodes[id := q.nodes[id].(placed := true, front := ToHead(q.nodes[id].cmd, ps))])
  }

  predicate Placed(q: Queues, id: nat) { id in q.filling && id in q.nodes && q.nodes[id].placed }

  /** The locked region of `lbs_queue_cmd` */
  function InsertPending(q: Queues, id: nat): Queues
    requires Placed(q, id)
  {
    var front := q.nodes[id].front;
    q.(filling := q.filling - {id},
       pending := if front then [id] + q.pending else q.pending + [id],
       nodes := q.nodes[id := q.nodes[id].(ticket := |q.h.entered|)],
       h := q.h.(entered := q.h.entered + [Entry(q.nodes[id].cmd, front)]))
  }

  /** The locked region of `lbs_submit_command` */
  function MakeCurrent(q: Queues, id: nat, n: nat): Queues
    requires id in q.nodes
  {
    q.(inHand := None, cur := Some(id), nodes := q.nodes[id := q.nodes[id].(seqnum := n)],
       h := q.h.(submitted := q.h.submitted + [q.nodes[id].ticket]))
  }

  // --------------------------------------------------------------- the main thread

  function After(next: Next): Pc {
    match next
    case ToEvents => EventLoop
    case ToGate => Gate
    case ToData => DataStage
    case ToAnswer(idx) => RespAnswer(idx)
  }

  function At(b: Inbox, idx: bool): Option<Response> { if idx then b.upper else b.lower }

  function Put(b: Inbox, idx: bool, r: Option<Response>): Inbox {
    if idx then b.(upper := r) else b.(lower := r)
  }

  /** No command is with the card and none is on its way. */
  predicate Quiet(s: State) { s.link.dnld == ResReceived && s.q.cur == None }

  predicate NothingWaits(b: Inbox) { b.events == [] && At(b, b.respIdx) == None }

  predicate Asleep(ps: PsState) { ps == Sleep || ps == PreSleep }

  /** A payload is handed to the card. */
  function Logged(s: State, what: Payload): Log {
    s.log.(wire := s.log.wire + [Transfer(what, s.power.psstate, s.link.dnld)])
  }

  /** The bus driver marks the transfer, unless it fails early. */
  function Marked(link: Link, mark: Dnld, ok: bool, sent: bool): Link {
    if ok || sent then link.(dnld := mark) else link
  }

  function CompleteIf(q: Queues, id: Option<nat>, condition: bool): Queues {
    if condition && id.Some? then Complete(q, id.value) else q
  }

  /** The checks of `lbs_process_command_response`: is this the answer to the current command? */
  predicate Accepted(q: Queues, r: Response) {
    q.cur.Some? && r.answers % 0x1_0000 == SeqnumOf(q, q.cur.value) && r.fits && !r.defer
  }

  /** The answer to a PS_MODE command that succeeded. */
  predicate PsDone(r: Response, action: PsAction) { r.ok && r.ps == Some(action) }

  /** ENTER_PS is answered when the connection is gone: EXIT_PS goes into the queue first. */
  predicate MustWake(settings: Settings, r: Response) { PsDone(r, EnterPs) && !settings.connected }

  /** The command is answered and still has to be completed by its callback's caller. */
  predicate Callback(r: Response) { r.ps == None && r.ok }

  function PsAfter(power: Power, r: Response): Power {
    power.(needToWakeup := power.needToWakeup && !PsDone(r, EnterPs) && !PsDone(r, ExitPs),
           psstate := if PsDone(r, EnterPs) then Awake else if PsDone(r, ExitPs) then FullPower else power.psstate)
  }

  function CamAfter(settings: Settings, r: Response): Settings {
    settings.(psCam := settings.psCam || (!r.ok && settings.monitor && r.ps == Some(EnterPs)))
  }

  function TakeAnswer(s: State, idx: bool, r: Response): State {
    s.(link := s.link.(cmdTimedOut := false),
       log := s.log.(matches := s.log.matches + [Match(s.log.submissions, r.answers, r.ps, r.ok)]),
       settings := CamAfter(s.settings, r),
       power := PsAfter(s.power, r),
       q := CompleteIf(s.q, s.q.cur, !MustWake(s.settings, r) && !Callback(r)),
       pc := if MustWake(s.settings, r) then Issue(PsMode(ExitPs), ToAnswer(idx))
             else if Callback(r) then RespCallback(idx)
             else RespClear(idx))
  }

  /** The first locked region of `lbs_process_command_response` */
  function ProcessResponse(s: State, idx: bool, r: Response): State {
    if Accepted(s.q, r) then TakeAnswer(s, idx, r) else s.(pc := RespClear(idx))
  }

  /** The main thread looks at the response buffer it was pointed to. */
  function StartResponse(s: State, idx: bool): State {
    if At(s.inbox, idx).Some? then ProcessResponse(s, idx, At(s.inbox, idx).value) else s.(pc := RespClear(idx))
  }

  function PowerAfter(s: State, e: CardEvent): Power {
    var ps := s.power.psstate;
    s.power.(psstate := if ps == FullPower then FullPower
                        else if e == PsSleep && s.q.pending == [] then PreSleep
                        else if e == PsAwake then Awake
                        else ps,
             deepSleep := s.power.deepSleep && e != HostAwake && e != DsAwake,
             wakeupDev := s.power.wakeupDev && e != DsAwake)
  }

  function EventPc(s: State, e: CardEvent): Pc {
    var full := s.power.psstate == FullPower;
    match e
    case Disconnected => if s.settings.connected && !full then Issue(PsMode(ExitPs), ToEvents) else EventLoop
    case PsSleep => if !full && s.q.pending == [] then Confirm1(ToEvents) else EventLoop
    case PsAwake => if !full && s.power.needToWakeup then Issue(PsMode(ExitPs), ToEvents) else EventLoop
    case HostAwake => Issue(WakeupConfirm, ToEvents)
    case _ => EventLoop
  }

  /** `lbs_process_event` */
  function ProcessEvent(s: State, e: CardEvent): State {
    s.(power := PowerAfter(s, e),
       link := s.link.(txPending := s.link.txPending && !(e == Disconnected && s.settings.connected)),
       settings := s.settings.(connected := s.settings.connected && e != Disconnected),
       pc := EventPc(s, e))
  }

  /** What `lbs_execute_next_command` decides about the command at the head of the queue. */
  datatype Verdict = Send | Wait | WakeFirst | Ignore

  function Consider(cmd: Command, ps: PsState): Verdict {
    if cmd == Rssi || cmd == HostSleepCfg then (if Asleep(ps) then Wait else Send)
    else if ps == FullPower then Send
    else if !cmd.PsMode? then (if Asleep(ps) then Wait else WakeFirst)
    else if cmd.action != ExitPs || Asleep(ps) then Ignore
    else Send
  }

  /** The firmware has to be woken before this command makes sense. */
  predicate NeedsWakeup(cmd: Command, ps: PsState) {
    Asleep(ps) && cmd != Rssi && cmd != HostSleepCfg && (!cmd.PsMode? || cmd.action == ExitPs)
  }

  function ConsiderCommand(s: State, id: nat): State {
    var cmd, ps := CmdOf(s.q, id), s.power.psstate;
    s.(power := s.power.(needToWakeup := s.power.needToWakeup || NeedsWakeup(cmd, ps)),
       q := CompleteIf(s.q, Some(id), Consider(cmd, ps) == Ignore),
       pc := match Consider(cmd, ps)
             case Send => Unlink(id)
             case WakeFirst => Issue(PsMode(ExitPs), ToData)
             case _ => DataStage)
  }

  /** `__lbs_cmd_async` up to filling the node; without a free node, or in deep sleep, it fails. */
  predicate CanIssue(s: State) { s.q.free != [] && (s.settings.autoDeepSleep || !s.power.deepSleep) }

  function IssueStep(s: State, cmd: Command, next: Next): State {
    s.(q := if CanIssue(s) then Fill(s.q, cmd, false) else s.q,
       pc := if CanIssue(s) then AwaitQueued(s.q.free[0], next) else After(next))
  }

  predicate SleepUnconfirmed(s: State) { s.power.psstate == PreSleep && Quiet(s) }

  /** `lbs_execute_next_command` up to choosing a command */
  function NextCommand(s: State): Pc {
    if s.q.cur != None then DataStage
    else if s.q.pending != [] then Peeked(s.q.pending[0])
    else if !s.settings.psCam && s.power.psstate == FullPower && s.settings.connected then
      Issue(PsMode(EnterPs), ToData)
    else DataStage
  }

  function UnlinkStep(s: State, id: nat): State {
    s.(q := LeavePending(s.q, id).(inHand := Some(id)), pc := Submit1(id))
  }

  /** A 16-bit sequence number is counted up. */
  function NextSeqnum(n: nat): nat { (n + 1) % 0x1_0000 }

  function Submit(s: State, id: nat, n: nat): State
    requires id in s.q.nodes
  {
    s.(link := s.link.(seqnum := n), q := MakeCurrent(s.q, id, n),
       log := s.log.(submissions := s.log.submissions + 1), pc := Submit2(id))
  }

  function SendCommand(s: State, id: nat, ok: bool, sent: bool): State {
    s.(log := Logged(s, Cmd(CmdOf(s.q, id))), link := Marked(s.link, CmdSent, ok, sent),
       pc := if ok then Submit3(id, CmdOf(s.q, id)) else SubmitFail(id, CmdOf(s.q, id)))
  }

  function FailCommand(s: State, id: nat, cmd: Command): State {
    s.(link := s.link.(dnld := ResReceived), q := Complete(s.q, id), pc := Submit3(id, cmd))
  }

  /** The end of `lbs_submit_command` */
  function Submitted(s: State, id: nat, cmd: Command): State {
    var woken := cmd == DeepSleep && s.settings.autoDeepSleep;
    s.(power := s.power.(deepSleep := s.power.deepSleep || cmd == DeepSleep, wakeupDev := s.power.wakeupDev || woken),
       link := if woken then s.link.(dnld := ResReceived) else s.link,
       q := CompleteIf(s.q, Some(id), cmd == DeepSleep),
       pc := DataStage)
  }

  function SendData(s: State, ok: bool): State {
    var go := s.link.dnld == ResReceived && s.link.txPending;
    s.(log := if go then Logged(s, Frame) else s.log,
       link := if go then s.link.(dnld := if ok then DataSent else ResReceived, txPending := false) else s.link,
       pc := Top)
  }

  function TakeEvent(s: State): State {
    s.(inbox := s.inbox.(events := if s.inbox.events == [] then [] else s.inbox.events[1..]),
       pc := if s.inbox.events == [] then AfterEvents else HandleEvent(s.inbox.events[0]))
  }

  function ClearResponse(s: State, idx: bool): State {
    s.(inbox := Put(s.inbox, idx, None), pc := EventLoop)
  }

  /** The current command, if there is one, is completed. */
  function FinishCurrent(s: State, condition: bool, pc: Pc): State {
    s.(q := CompleteIf(s.q, s.q.cur, condition), pc := pc)
  }

  function CheckPreSleep(s: State): State {
    s.(power := if SleepUnconfirmed(s) && !s.settings.connected then s.power.(psstate := Awake) else s.power,
       pc := if SleepUnconfirmed(s) && s.settings.connected then Confirm1(ToGate) else Gate)
  }

  function SendConfirm(s: State, next: Next, ok: bool, sent: bool): State {
    s.(log := Logged(s, ConfirmSleep), link := Marked(s.link, CmdSent, ok, sent),
       pc := if ok then Confirm3(next) else After(next))
  }

  function FallAsleep(s: State, next: Next): State {
    s.(link := s.link.(dnld := ResReceived),
       power := if NothingWaits(s.inbox) then s.power.(psstate := Sleep) else s.power,
       pc := After(next))
  }

  function ClearTimeout(s: State): State {
    s.(link := s.link.(cmdTimedOut := false), pc := if s.settings.fwReady then PreSleepCheck else Top)
  }

  /** Where the main thread goes when it only looks at something. */
  function Onward(s: State): Pc {
    match s.pc
    case Top => if At(s.inbox, s.inbox.respIdx).Some? then RespStart(s.inbox.respIdx) else EventLoop
    case Confirm1(next) => if Quiet(s) && NothingWaits(s.inbox) then Confirm2(next) else After(next)
    case AwaitQueued(id, next) => if id in s.q.filling then s.pc else After(next)
    case AfterEvents => if s.power.wakeupDev then Top else TimeoutCheck
    case Gate => if Asleep(s.power.psstate) || s.power.deepSleep then Top else if Quiet(s) then Exec else DataStage
    case Exec => NextCommand(s)
    case _ => s.pc
  }

  // The main thread's step, one part of its loop at a time.

  predicate Answering(pc: Pc) { pc.RespStart? || pc.RespCallback? || pc.RespAnswer? || pc.RespClear? }

  function AnswerStep(s: State): State {
    match s.pc
    case RespStart(idx) => StartResponse(s, idx)
    case RespCallback(idx) => FinishCurrent(s, true, RespClear(idx))
    case RespAnswer(idx) => FinishCurrent(s, true, RespClear(idx))
    case RespClear(idx) => ClearResponse(s, idx)
    case _ => s
  }

  predicate Detouring(pc: Pc) { pc.HandleEvent? || pc.Confirm2? || pc.Confirm3? || pc.Issue? }

  function DetourStep(s: State, ok: bool, sent: bool): State {
    match s.pc
    case HandleEvent(e) => ProcessEvent(s, e)
    case Confirm2(next) => SendConfirm(s, next, ok, sent)
    case Confirm3(next) => FallAsleep(s, next)
    case Issue(cmd, next) => IssueStep(s, cmd, next)
    case _ => s
  }

  predicate Checking(pc: Pc) { pc.EventLoop? || pc.TimeoutCheck? || pc.TimeoutClear? || pc.PreSleepCheck? }

  function CheckStep(s: State): State {
    match s.pc
    case EventLoop => TakeEvent(s)
    case TimeoutCheck => FinishCurrent(s, s.link.cmdTimedOut, TimeoutClear)
    case TimeoutClear => ClearTimeout(s)
    case PreSleepCheck => CheckPreSleep(s)
    case _ => s
  }

  predicate Choosing(pc: Pc) { pc.Peeked? || pc.Unlink? || pc.Submit1? }

  function ChooseStep(s: State): State {
    match s.pc
    case Peeked(id) => ConsiderCommand(s, id)
    case Unlink(id) => UnlinkStep(s, id)
    case Submit1(id) => if id in s.q.nodes then Submit(s, id, NextSeqnum(s.link.seqnum)) else s
    case _ => s
  }

  predicate Sending(pc: Pc) { pc.Submit2? || pc.SubmitFail? || pc.Submit3? || pc.DataStage? }

  function SendStep(s: State, ok: bool, sent: bool): State {
    match s.pc
    case Submit2(id) => SendCommand(s, id, ok, sent)
    case SubmitFail(id, cmd) => FailCommand(s, id, cmd)
    case Submit3(id, cmd) => Submitted(s, id, cmd)
    case DataStage => SendData(s, ok)
    case _ => s
  }

  function MainStep(s: State, ok: bool, sent: bool): State {
    if Answering(s.pc) then AnswerStep(s)
    else if Detouring(s.pc) then DetourStep(s, ok, sent)
    else if Checking(s.pc) then CheckStep(s)
    else if Choosing(s.pc) then ChooseStep(s)
    else if Sending(s.pc) then SendStep(s, ok, sent)
    else s.(pc := Onward(s))
  }

  // ------------------------------------------------------------------ all actors

  function WakeUp(power: Power): Power { if power.psstate == Sleep then power.(psstate := Awake) else power }

  /** `lbs_cmd_timeout_handler` */
  function TimeOut(s: State): Link {
    s.link.(cmdTimedOut := s.link.cmdTimedOut || s.q.cur.Some?,
            dnld := if s.q.cur.Some? && s.link.dnld == CmdSent then ResReceived else s.link.dnld)
  }

  /** What callers and the card may do: callers act on their own nodes, the card answers a submission
      that was made and does not overrun the buffer it is about to fill (a BUG_ON). */
  predicate Allowed(s: State, a: Act) {
    match a
    case Place(id) => id in s.q.filling && id in s.q.nodes && !s.q.nodes[id].placed
    case Insert(id) => Placed(s.q, id)
    case CleanUp(id) => id in s.q.done
    case NotifyResponse(r) => r.answers <= s.log.submissions && At(s.inbox, !s.inbox.respIdx) == None
    case _ => true
  }

  /** The transfer of a DEEP_SLEEP command fails. */
  predicate DeepSleepFails(s: State, a: Act) {
    a.Main? && !a.ok && s.pc.Submit2? && CmdOf(s.q, s.pc.id) == DeepSleep
  }

  predicate Enabled(s: State, a: Act) { Allowed(s, a) && !DeepSleepFails(s, a) }

  function Step(s: State, a: Act): State
    requires Allowed(s, a)
  {
    match a
    case Main(ok, sent) => MainStep(s, ok, sent)
    case Call(cmd, waited) => if CanIssue(s) then s.(q := Fill(s.q, cmd, waited)) else s
    case Place(id) => s.(q := ChoosePlace(s.q, id, s.power.psstate))
    case Insert(id) => s.(q := InsertPending(s.q, id))
    case CleanUp(id) => s.(q := CleanUpAndInsert(s.q.(done := s.q.done - {id}), id))
    case QueueEvent(e) => s.(power := WakeUp(s.power), inbox := s.inbox.(events := s.inbox.events + [e]))
    case NotifyResponse(r) =>
      s.(power := WakeUp(s.power), inbox := Put(s.inbox, !s.inbox.respIdx, Some(r)).(respIdx := !s.inbox.respIdx))
    case HostToCardDone => s.(link := s.link.(dnld := ResReceived))
    case CmdTimeout => s.(link := TimeOut(s))
    case TxLockup => s.(link := s.link.(dnld := ResReceived))
    case LineUpPacket(pending) => s.(link := s.link.(txPending := pending))
    case User(settings, wakeupDev) => s.(settings := settings, power := s.power.(wakeupDev := wakeupDev))
  }

  /** The actions are ones the environment may take, one after the other. */
  predicate Possible(s: State, acts: seq<Act>)
    decreases |acts|
  {
    acts != [] ==> Enabled(s, acts[0]) && Possible(Step(s, acts[0]), acts[1..])
  }

  function Run(s: State, acts: seq<Act>): State
    requires Possible(s, acts)
    decreases |acts|
  {
    if acts == [] then s else Run(Step(s, acts[0]), acts[1..])
  }
}
