/**
 The command queue of the libertas_tf driver, which sends a command again when it times out. A step
 is one region of a work item, interrupt or caller between two points where another can run.
 */
module LbtfCommand {
  import opened Wrappers

  /** A command as it was queued: its place in the order of queueing, for the history, and the
      sequence number that `__lbtf_cmd_async` wrote into it. */
  datatype Cmd = Cmd(id: nat, sn: nat)

  /** A response, and how its command code and result compare with what is expected */
  datatype Response = Response(sn: nat, fits: bool, defer: bool, result: int)

  /** How a command ended: with the result in a response, which the history keeps, or not at all */
  datatype Outcome = Answered(result: int, answer: Response) | TimedOut
  datatype Completion = Completion(cmd: Cmd, outcome: Outcome)

  const NO_RESPONSE := Response(0, false, false, 0)

  const MAX_RETRIES: nat := 10

  datatype Pc =
    | Idle
    | RxCheck       // lbtf_process_rx_command, cmd.c:726-788
    | RxComplete    // cmd.c:795-801
    | TimeoutCheck  // main.c:103-119
    | ReadyCheck    // main.c:121-128
    | Exec          // cmd.c:576-596
    | Submit        // lbtf_submit_command

  datatype State = State(
    pending: seq<Cmd>, cur: Option<Cmd>,
    inHand: Option<Cmd>,  // taken off the queue by the work item and not yet current
    nrRetries: nat, timedOut: bool, rxed: bool, resp: Response, fwReady: bool,
    pc: Pc,
    next: nat, wire: seq<Cmd>, done: seq<Completion>,  // history
    taken: Response)  // and the response that the callback was called with

  datatype Act =
    | Work
    | Queue(sn: nat)
    | Timer
    | ResponseRx(r: Response)
    | SetReady(ready: bool)

  function Init(): State {
    State([], None, None, 0, false, false, NO_RESPONSE, false, Idle, 0, [], [], NO_RESPONSE)
  }

  predicate Accepted(s: State) {
    s.cur.Some? && s.resp.sn == s.cur.value.sn && s.resp.fits && !s.resp.defer
  }

  function CompletedIf(s: State, condition: bool, outcome: Outcome): seq<Completion> {
    if condition && s.cur.Some? then s.done + [Completion(s.cur.value, outcome)] else s.done
  }

  function CurUnless(s: State, condition: bool): Option<Cmd> { if condition then None else s.cur }

  /** `lbtf_process_rx_command` up to calling the callback */
  function CheckResponse(s: State): State {
    var failed := Accepted(s) && s.resp.result != 0;
    s.(timedOut := s.timedOut && !Accepted(s),
       nrRetries := if Accepted(s) then 0 else s.nrRetries,
       cur := CurUnless(s, failed),
       done := CompletedIf(s, failed, Answered(s.resp.result, s.resp)),
       taken := if Accepted(s) then s.resp else s.taken,
       pc := if Accepted(s) && !failed then RxComplete else TimeoutCheck)
  }

  function CompleteResponse(s: State): State {
    s.(cur := None, done := CompletedIf(s, true, Answered(0, s.taken)), pc := TimeoutCheck)
  }

  predicate Expired(s: State) { s.timedOut && s.cur.Some? }

  predicate GivesUp(s: State) { Expired(s) && s.nrRetries >= MAX_RETRIES }

  /** main.c:103-119 */
  function CheckTimeout(s: State): State {
    s.(timedOut := false,
       nrRetries := if GivesUp(s) then 0 else if Expired(s) then s.nrRetries + 1 else s.nrRetries,
       cur := CurUnless(s, Expired(s)),
       done := CompletedIf(s, GivesUp(s), TimedOut),
       pending := if Expired(s) && !GivesUp(s) then [s.cur.value] + s.pending else s.pending,
       pc := ReadyCheck)
  }

  /** `lbtf_execute_next_command` */
  function TakeNext(s: State): State {
    var go := s.cur == None && s.pending != [];
    s.(inHand := if go then Some(s.pending[0]) else s.inHand,
       pending := if go then s.pending[1..] else s.pending,
       pc := if go then Submit else Idle)
  }

  /** `lbtf_submit_command`. Whether the transfer succeeds makes no difference here: the timer runs
      either way. */
  function SubmitCommand(s: State): State {
    s.(cur := s.inHand, inHand := None,
       wire := if s.inHand.Some? then s.wire + [s.inHand.value] else s.wire,
       pc := Idle)
  }

  function WorkStep(s: State): State {
    match s.pc
    case Idle => s.(pc := if s.rxed then RxCheck else TimeoutCheck, rxed := false)
    case RxCheck => CheckResponse(s)
    case RxComplete => CompleteResponse(s)
    case TimeoutCheck => CheckTimeout(s)
    case ReadyCheck => s.(pc := if s.fwReady && s.cur == None then Exec else Idle)
    case Exec => TakeNext(s)
    case Submit => SubmitCommand(s)
  }

  function QueueCommand(s: State, sn: nat): State {
    s.(pending := s.pending + [Cmd(s.next, sn)], next := s.next + 1)
  }

  function Step(s: State, a: Act): State {
    match a
    case Work => WorkStep(s)
    case Queue(sn) => QueueCommand(s, sn)
    case Timer => s.(timedOut := s.timedOut || s.cur.Some?)
    case ResponseRx(r) => s.(rxed := true, resp := r)
    case SetReady(ready) => s.(fwReady := ready)
  }

  function Run(s: State, acts: seq<Act>): State
    decreases |acts|
  {
    if acts == [] then s else Run(Step(s, acts[0]), acts[1..])
  }

  // ----------------------------------------------------------------- the invariant

  function ToSeq(o: Option<Cmd>): seq<Cmd> { if o.Some? then [o.value] else [] }

  /** All commands that are not completed, the one being tried first */
  function Lineup(s: State): seq<Cmd> { ToSeq(s.cur) + ToSeq(s.inHand) + s.pending }

  /** How often a command was handed to the card */
  function Sent(wire: seq<Cmd>, id: nat): nat {
    if wire == [] then 0
    else Sent(wire[..|wire| - 1], id) + if wire[|wire| - 1].id == id then 1 else 0
  }

  /** The uncompleted commands are numbered from the count of completed ones on. */
  predicate Numbered(line: seq<Cmd>, base: nat) {
    forall i :: 0 <= i < |line| ==> line[i].id == base + i
  }

  /** Commands go to the card in the order they were queued, a retry directly after what it repeats. */
  predicate Sorted(wire: seq<Cmd>) {
    forall i, j :: 0 <= i < j < |wire| ==> wire[i].id <= wire[j].id
  }

  predicate SameNumber(wire: seq<Cmd>) {
    forall i, j :: 0 <= i < j < |wire| && wire[i].id == wire[j].id ==> wire[i] == wire[j]
  }

  /** What was sent belongs to completed commands and to the first of the others. */
  predicate UpTo(wire: seq<Cmd>, line: seq<Cmd>, done: seq<Completion>) {
    forall i :: 0 <= i < |wire| ==>
      (wire[i].id < |done| && wire[i] == done[wire[i].id].cmd) || (line != [] && wire[i] == line[0])
  }

  /** An answer is a response to this command: it has its sequence number, fits it and is not DEFER. */
  predicate Answers(answer: Response, cmd: Cmd) { answer.sn == cmd.sn && answer.fits && !answer.defer }

  predicate OutcomeOk(c: Completion) {
    c.outcome.Answered? ==> Answers(c.outcome.answer, c.cmd) && c.outcome.result == c.outcome.answer.result
  }

  predicate DoneOk(done: seq<Completion>, wire: seq<Cmd>) {
    forall i :: 0 <= i < |done| ==>
      && done[i].cmd.id == i && Sent(wire, i) <= MAX_RETRIES + 1 && OutcomeOk(done[i])
      && (done[i].outcome == TimedOut ==> Sent(wire, i) == MAX_RETRIES + 1)
  }

  function Tries(s: State): nat { s.nrRetries + if s.cur.Some? then 1 else 0 }

  /** The current command's callback is being called, with a response to it that says 0. */
  predicate Called(s: State)
    requires s.cur.Some?
  {
    Answers(s.taken, s.cur.value) && s.taken.result == 0
  }

  /** How often the first uncompleted command was sent */
  predicate CountOk(s: State) {
    var n := Sent(s.wire, |s.done|);
    && s.nrRetries <= MAX_RETRIES
    && (if s.pc == RxComplete then s.cur.Some? && s.nrRetries == 0 && n <= MAX_RETRIES + 1 && Called(s)
        else n == Tries(s))
  }

  predicate History(line: seq<Cmd>, wire: seq<Cmd>, done: seq<Completion>) {
    && Numbered(line, |done|) && Sorted(wire) && SameNumber(wire) && UpTo(wire, line, done) && DoneOk(done, wire)
  }

  predicate PcOk(s: State) {
    (s.inHand.Some? <==> s.pc == Submit) && (s.pc == Exec || s.pc == Submit ==> s.cur == None)
  }

  predicate Inv(s: State) {
    History(Lineup(s), s.wire, s.done) && s.next == |s.done| + |Lineup(s)| && CountOk(s) && PcOk(s)
  }

  // ----------------------------------------------------------------------- lemmas

  lemma {:induction false} NotSent(wire: seq<Cmd>, id: nat)
    requires forall i :: 0 <= i < |wire| ==> wire[i].id != id
    ensures Sent(wire, id) == 0
  {
    if wire != [] { NotSent(wire[..|wire| - 1], id); }
  }

  lemma SentSnoc(wire: seq<Cmd>, c: Cmd, id: nat)
    ensures Sent(wire + [c], id) == Sent(wire, id) + if c.id == id then 1 else 0
  {
    assert (wire + [c])[..|wire|] == wire;
  }

  /** The first command is completed. */
  lemma CompleteHistory(line: seq<Cmd>, wire: seq<Cmd>, done: seq<Completion>, outcome: Outcome)
    requires line != [] && History(line, wire, done) && Sent(wire, |done|) <= MAX_RETRIES + 1
    requires outcome == TimedOut ==> Sent(wire, |done|) == MAX_RETRIES + 1
    requires OutcomeOk(Completion(line[0], outcome))
    ensures History(line[1..], wire, done + [Completion(line[0], outcome)])
    ensures Sent(wire, |done| + 1) == 0
  {
    NotSent(wire, |done| + 1);
  }

  lemma QueueHistory(line: seq<Cmd>, wire: seq<Cmd>, done: seq<Completion>, c: Cmd)
    requires History(line, wire, done) && c.id == |done| + |line|
    ensures History(line + [c], wire, done)
  {
    assert line != [] ==> (line + [c])[0] == line[0];
  }

  lemma SubmitSorted(line: seq<Cmd>, wire: seq<Cmd>, done: seq<Completion>)
    requires line != [] && History(line, wire, done)
    ensures Sorted(wire + [line[0]]) && SameNumber(wire + [line[0]]) && UpTo(wire + [line[0]], line, done)
  {}

  /** The first command is sent. */
  lemma SubmitHistory(line: seq<Cmd>, wire: seq<Cmd>, done: seq<Completion>)
    requires line != [] && History(line, wire, done)
    ensures History(line, wire + [line[0]], done)
    ensures Sent(wire + [line[0]], |done|) == Sent(wire, |done|) + 1
  {
    SubmitSorted(line, wire, done);
    SentSnoc(wire, line[0], |done|);
    forall i | 0 <= i < |done| ensures Sent(wire + [line[0]], i) == Sent(wire, i) {
      SentSnoc(wire, line[0], i);
    }
  }

  // ------------------------------------------------------------------------- steps

  /** Completing the current command uncovers the rest of the line. */
  lemma CurrentIsFirst(s: State)
    requires s.cur.Some?
    ensures Lineup(s) != [] && Lineup(s)[0] == s.cur.value
    ensures Lineup(s.(cur := None)) == Lineup(s)[1..]
  {}

  lemma CheckResponseKeeps(s: State)
    requires Inv(s) && s.pc == RxCheck
    ensures Inv(CheckResponse(s))
  {
    if Accepted(s) && s.resp.result != 0 {
      CurrentIsFirst(s);
      CompleteHistory(Lineup(s), s.wire, s.done, Answered(s.resp.result, s.resp));
      assert Lineup(CheckResponse(s)) == Lineup(s.(cur := None));
    } else {
      assert Lineup(CheckResponse(s)) == Lineup(s);
    }
  }

  lemma CompleteResponseKeeps(s: State)
    requires Inv(s) && s.pc == RxComplete
    ensures Inv(CompleteResponse(s))
  {
    CurrentIsFirst(s);
    CompleteHistory(Lineup(s), s.wire, s.done, Answered(0, s.taken));
    assert Lineup(CompleteResponse(s)) == Lineup(s.(cur := None));
  }

  lemma GiveUpKeeps(s: State)
    requires Inv(s) && s.pc == TimeoutCheck && GivesUp(s)
    ensures Inv(CheckTimeout(s))
  {
    CurrentIsFirst(s);
    CompleteHistory(Lineup(s), s.wire, s.done, TimedOut);
    assert Lineup(CheckTimeout(s)) == Lineup(s.(cur := None));
  }

  lemma RequeueKeeps(s: State)
    requires Inv(s) && s.pc == TimeoutCheck && Expired(s) && !GivesUp(s)
    ensures Inv(CheckTimeout(s))
  {
    Requeued(s, CheckTimeout(s));
  }

  /** The command goes back to the head of the queue, and its failure is counted. */
  lemma Requeued(s: State, s': State)
    requires Inv(s) && s.pc == TimeoutCheck && Expired(s) && !GivesUp(s)
    requires s' == s.(timedOut := false, nrRetries := s.nrRetries + 1, cur := None,
                      pending := [s.cur.value] + s.pending, pc := ReadyCheck)
    ensures Inv(s')
  {
    assert Lineup(s') == Lineup(s);
  }

  lemma NothingExpired(s: State, s': State)
    requires Inv(s) && s.pc == TimeoutCheck && !Expired(s) && s' == s.(timedOut := false, pc := ReadyCheck)
    ensures Inv(s')
  {
    assert Lineup(s') == Lineup(s);
  }

  lemma TakeNextKeeps(s: State)
    requires Inv(s) && s.pc == Exec
    ensures Inv(TakeNext(s))
  {
    assert Lineup(TakeNext(s)) == Lineup(s);
  }

  lemma SubmitKeeps(s: State)
    requires Inv(s) && s.pc == Submit
    ensures Inv(SubmitCommand(s))
  {
    assert Lineup(SubmitCommand(s)) == Lineup(s);
    SubmitHistory(Lineup(s), s.wire, s.done);
  }

  lemma QueueKeeps(s: State, sn: nat)
    requires Inv(s)
    ensures Inv(QueueCommand(s, sn))
  {
    QueueHistory(Lineup(s), s.wire, s.done, Cmd(s.next, sn));
    assert Lineup(QueueCommand(s, sn)) == Lineup(s) + [Cmd(s.next, sn)];
  }

  /** Steps that touch neither the commands nor the history */
  lemma OtherKeeps(s: State, s': State)
    requires Inv(s) && PcOk(s') && (s'.pc == RxComplete <==> s.pc == RxComplete)
    requires s'.cur == s.cur && s'.inHand == s.inHand && s'.pending == s.pending && s'.nrRetries == s.nrRetries
    requires s'.next == s.next && s'.wire == s.wire && s'.done == s.done && s'.taken == s.taken
    ensures Inv(s')
  {
    assert Lineup(s') == Lineup(s);
  }

  lemma WorkKeeps(s: State)
    requires Inv(s)
    ensures Inv(WorkStep(s))
  {
    match s.pc
    case RxCheck => CheckResponseKeeps(s);
    case RxComplete => CompleteResponseKeeps(s);
    case TimeoutCheck =>
      if GivesUp(s) {
        GiveUpKeeps(s);
      } else if Expired(s) {
        RequeueKeeps(s);
      } else {
        NothingExpired(s, CheckTimeout(s));
      }
    case Exec => TakeNextKeeps(s);
    case Submit => SubmitKeeps(s);
    case _ => OtherKeeps(s, WorkStep(s));
  }

  lemma StepKeepsInv(s: State, a: Act)
    requires Inv(s)
    ensures Inv(Step(s, a))
  {
    match a
    case Work => WorkKeeps(s);
    case Queue(sn) => QueueKeeps(s, sn);
    case _ => OtherKeeps(s, Step(s, a));
  }

  lemma {:induction false} RunKeepsInv(s: State, acts: seq<Act>)
    requires Inv(s)
    ensures Inv(Run(s, acts))
    decreases |acts|
  {
    if acts != [] {
      StepKeepsInv(s, acts[0]);
      RunKeepsInv(Step(s, acts[0]), acts[1..]);
    }
  }

  lemma {:induction false} RunAppend(s: State, acts: seq<Act>, more: seq<Act>)
    ensures Run(s, acts + more) == Run(Run(s, acts), more)
    decreases |acts|
  {
    if acts == [] {
      assert acts + more == more;
    } else {
      assert (acts + more)[1..] == acts[1..] + more;
      RunAppend(Step(s, acts[0]), acts[1..], more);
    }
  }

  lemma WorkIsRun(s: State)
    ensures Run(s, [Work]) == WorkStep(s)
  {
    assert [Work][1..] == [];
    assert Run(Step(s, Work), []) == Step(s, Work);
  }

  // --------------------------------------------------------------- over whole runs

  predicate Reached(s: State, acts: seq<Act>) { s == Run(Init(), acts) }

  lemma ReachedInv(s: State, acts: seq<Act>)
    requires Reached(s, acts)
    ensures Inv(s)
  {
    RunKeepsInv(Init(), acts);
  }

  /** Bounded retry: against any card and any timeouts, no command is sent more than 11 times. */
  lemma SentAtMostElevenTimes(s: State, acts: seq<Act>, id: nat)
    requires Reached(s, acts)
    ensures Sent(s.wire, id) <= MAX_RETRIES + 1
  {
    ReachedInv(s, acts);
    if id > |s.done| { NotSent(s.wire, id); }
  }

  /** Between two transmissions of a command nothing else is sent, and its sequence number stays. */
  lemma RetriesAreAdjacent(s: State, acts: seq<Act>, i: nat, j: nat, k: nat)
    requires Reached(s, acts) && i <= j <= k < |s.wire| && s.wire[i].id == s.wire[k].id
    ensures s.wire[j] == s.wire[i]
  {
    ReachedInv(s, acts);
    assert i < j ==> s.wire[i].id <= s.wire[j].id;
    assert j < k ==> s.wire[j].id <= s.wire[k].id;
  }

  /** A command that ends with -ETIMEDOUT was sent exactly 11 times. */
  lemma TimedOutAfterEleven(s: State, acts: seq<Act>, i: nat)
    requires Reached(s, acts) && i < |s.done| && s.done[i].outcome == TimedOut
    ensures s.done[i].cmd.id == i && Sent(s.wire, i) == MAX_RETRIES + 1
  {
    ReachedInv(s, acts);
  }

  /** Commands are completed in the order they were queued, each once. */
  lemma CompletedInOrder(s: State, acts: seq<Act>, i: nat)
    requires Reached(s, acts) && i < |s.done|
    ensures s.done[i].cmd.id == i < s.next
  {
    ReachedInv(s, acts);
  }

  /** A timeout after fewer than eleven transmissions puts the command back at the head of the queue;
      the eleventh completes it. */
  lemma TimeoutDecides(s: State, acts: seq<Act>)
    requires Reached(s, acts) && s.pc == TimeoutCheck && Expired(s)
    ensures
      var s', n := WorkStep(s), Sent(s.wire, s.cur.value.id);
      1 <= n <= MAX_RETRIES + 1 && s'.cur == None &&
      (n <= MAX_RETRIES ==> s'.pending == [s.cur.value] + s.pending && s'.done == s.done) &&
      (n == MAX_RETRIES + 1 ==> s'.pending == s.pending && s'.done == s.done + [Completion(s.cur.value, TimedOut)])
  {
    ReachedInv(s, acts);
    CurrentIsFirst(s);
  }

  // ------------------------------------------------------------ responses and commands

  /** A response is taken, by completing the current command or by going on to its callback, if and
      only if it has that command's number, fits it and is not DEFER; a failure completes it at once. */
  lemma TakenIff(s: State, acts: seq<Act>)
    requires Reached(s, acts) && s.pc == RxCheck
    ensures var s', r := WorkStep(s), s.resp;
      && (s'.pc == RxComplete || s'.done != s.done <==>
            s.cur.Some? && r.sn == s.cur.value.sn && r.fits && !r.defer)
      && (s'.done != s.done ==>
            r.result != 0 && s'.cur == None && s'.done == s.done + [Completion(s.cur.value, Answered(r.result, r))])
      && (s'.pc == RxComplete ==> r.result == 0 && s'.cur == s.cur)
      && (s'.done == s.done && s'.pc != RxComplete ==> s' == s.(pc := TimeoutCheck))
  {
    ReachedInv(s, acts);
    if Accepted(s) && s.resp.result != 0 {
      assert WorkStep(s).done == s.done + [Completion(s.cur.value, Answered(s.resp.result, s.resp))];
    } else {
      assert WorkStep(s).done == s.done;
    }
  }

  /** After its callback the current command is complete, with result 0. */
  lemma CallbackCompletes(s: State, acts: seq<Act>)
    requires Reached(s, acts) && s.pc == RxComplete
    ensures s.cur.Some? && WorkStep(s).cur == None
    ensures WorkStep(s).done == s.done + [Completion(s.cur.value, Answered(0, s.taken))]
  {
    ReachedInv(s, acts);
  }

  /** The response is one that the card sent during the run. */
  predicate Came(acts: seq<Act>, r: Response) { ResponseRx(r) in acts }

  predicate Known(acts: seq<Act>, r: Response) { r == NO_RESPONSE || Came(acts, r) }

  predicate DoneKnown(done: seq<Completion>, acts: seq<Act>) {
    forall i :: 0 <= i < |done| && done[i].outcome.Answered? ==> Known(acts, done[i].outcome.answer)
  }

  /** Every response in the state came from the card. */
  predicate FromCard(s: State, acts: seq<Act>) {
    Known(acts, s.resp) && Known(acts, s.taken) && DoneKnown(s.done, acts)
  }

  lemma WorkDone(s: State, done: seq<Completion>)
    requires done == WorkStep(s).done
    ensures done == s.done
      || (s.cur.Some? &&
            (|| done == s.done + [Completion(s.cur.value, TimedOut)]
             || done == s.done + [Completion(s.cur.value, Answered(s.resp.result, s.resp))]
             || done == s.done + [Completion(s.cur.value, Answered(0, s.taken))]))
  {}

  lemma KnownMore(acts: seq<Act>, a: Act, r: Response)
    requires Known(acts, r)
    ensures Known(acts + [a], r)
  {}

  lemma DoneKnownMore(done: seq<Completion>, acts: seq<Act>, a: Act)
    requires DoneKnown(done, acts)
    ensures DoneKnown(done, acts + [a])
  {
    forall i | 0 <= i < |done| && done[i].outcome.Answered? ensures Known(acts + [a], done[i].outcome.answer) {
      KnownMore(acts, a, done[i].outcome.answer);
    }
  }

  lemma WorkFromCard(s: State, acts: seq<Act>)
    requires FromCard(s, acts)
    ensures FromCard(WorkStep(s), acts)
  {
    WorkDone(s, WorkStep(s).done);
  }

  lemma StepFromCard(s: State, acts: seq<Act>, a: Act)
    requires FromCard(s, acts)
    ensures FromCard(Step(s, a), acts + [a])
  {
    KnownMore(acts, a, s.resp);
    KnownMore(acts, a, s.taken);
    DoneKnownMore(s.done, acts, a);
    if a == Work { WorkFromCard(s, acts + [a]); }
    if a.ResponseRx? { assert (acts + [a])[|acts|] == a; }
  }

  lemma {:induction false} RunFromCard(s: State, before: seq<Act>, acts: seq<Act>)
    requires FromCard(s, before)
    ensures FromCard(Run(s, acts), before + acts)
    decreases |acts|
  {
    if acts == [] {
      assert before + acts == before;
    } else {
      StepFromCard(s, before, acts[0]);
      RunFromCard(Step(s, acts[0]), before + [acts[0]], acts[1..]);
      assert before + [acts[0]] + acts[1..] == before + acts;
    }
  }

  /** Whatever ends as answered was answered: by a response that the card sent in the run, with the
      command's own sequence number, and the result is the one in it. */
  lemma AnsweredByItsResponse(s: State, acts: seq<Act>, i: nat)
    requires Reached(s, acts) && i < |s.done| && s.done[i].outcome.Answered?
    ensures var r := s.done[i].outcome.answer;
      && Came(acts, r) && r.sn == s.done[i].cmd.sn && r.fits && !r.defer
      && s.done[i].outcome.result == r.result
  {
    ReachedInv(s, acts);
    RunFromCard(Init(), [], acts);
    assert [] + acts == acts;
    assert s.done[i] in s.done && OutcomeOk(s.done[i]);
  }

  /** And its number is the one it was sent with. */
  lemma CompletedAsSent(s: State, acts: seq<Act>, i: nat, k: nat)
    requires Reached(s, acts) && i < |s.done| && k < |s.wire| && s.wire[k].id == i
    ensures s.wire[k] == s.done[i].cmd
  {
    ReachedInv(s, acts);
  }

  // ------------------------------------------------------------------- firmware ready

  predicate NeverReady(acts: seq<Act>) { acts != [] ==> acts[0] != SetReady(true) && NeverReady(acts[1..]) }

  /** Until the firmware is ready nothing is sent. */
  lemma {:induction false} NotReadyNotSent(s: State, acts: seq<Act>)
    requires !s.fwReady && s.pc != Exec && s.pc != Submit && NeverReady(acts)
    ensures Run(s, acts).wire == s.wire
    decreases |acts|
  {
    if acts != [] { NotReadyNotSent(Step(s, acts[0]), acts[1..]); }
  }
}
