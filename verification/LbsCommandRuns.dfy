/** What the invariant means for whole runs of the command queue and power-save machine. */
module LbsCommandRuns {
  import opened Wrappers
  import opened LbsCommand
  import opened LbsCommandLaws

  predicate Reached(s: State, acts: seq<Act>) { Possible(Init(), acts) && s == Run(Init(), acts) }

  lemma ReachedInv(s: State, acts: seq<Act>)
    requires Reached(s, acts)
    ensures Inv(s)
  {
    InitInv();
    RunKeepsInv(Init(), acts);
  }

  /** A step of the main thread whose transfer, if it makes one, succeeds */
  const GO := Main(true, true)

  lemma {:induction false} RunAppend(s: State, acts: seq<Act>, more: seq<Act>)
    requires Possible(s, acts) && Possible(Run(s, acts), more)
    ensures Possible(s, acts + more) && Run(s, acts + more) == Run(Run(s, acts), more)
    decreases |acts|
  {
    if acts == [] {
      assert acts + more == more;
    } else {
      assert (acts + more)[1..] == acts[1..] + more;
      RunAppend(Step(s, acts[0]), acts[1..], more);
    }
  }

  lemma RunOne(s: State, a: Act)
    requires Enabled(s, a)
    ensures Possible(s, [a]) && Run(s, [a]) == Step(s, a)
  {
    assert [a][1..] == [];
    assert Possible(Step(s, a), []);
  }

  /** What one thread does by itself: the main thread's regions, and the steps of a call */
  predicate Own(acts: seq<Act>) {
    acts != [] ==> OwnAct(acts[0]) && Own(acts[1..])
  }

  predicate OwnAct(a: Act) { a.Main? || a.Call? || a.Place? || a.Insert? }

  lemma {:induction false} OwnAppend(acts: seq<Act>, more: seq<Act>)
    requires Own(acts) && Own(more)
    ensures Own(acts + more)
    decreases |acts|
  {
    if acts == [] {
      assert acts + more == more;
    } else {
      assert (acts + more)[1..] == acts[1..] + more;
      OwnAppend(acts[1..], more);
    }
  }

  /** One thread, left alone, goes from one state to the other. */
  ghost predicate Ran(s: State, acts: seq<Act>, s': State) {
    Own(acts) && Possible(s, acts) && s' == Run(s, acts)
  }

  lemma RanThen(s: State, acts: seq<Act>, s1: State, more: seq<Act>, s2: State)
    requires Ran(s, acts, s1) && Ran(s1, more, s2)
    ensures Ran(s, acts + more, s2)
  {
    OwnAppend(acts, more);
    RunAppend(s, acts, more);
  }

  lemma RanStep(s: State, a: Act, s': State)
    requires OwnAct(a) && Enabled(s, a) && s' == Step(s, a)
    ensures Ran(s, [a], s')
  {
    RunOne(s, a);
  }

  lemma RanMore(s: State, acts: seq<Act>, s1: State, a: Act, s2: State)
    requires OwnAct(a) && Ran(s, acts, s1) && Enabled(s1, a) && s2 == Step(s1, a)
    ensures Ran(s, acts + [a], s2)
  {
    RanStep(s1, a, s2);
    RanThen(s, acts, s1, [a], s2);
  }

  lemma RanKeepsInv(s: State, acts: seq<Act>, s': State)
    requires Inv(s) && Ran(s, acts, s')
    ensures Inv(s')
  {
    RunKeepsInv(s, acts);
  }

  // The same for every outcome of every transfer, also for one of DEEP_SLEEP that fails

  predicate Permitted(s: State, acts: seq<Act>)
    decreases |acts|
  {
    acts != [] ==> Allowed(s, acts[0]) && Permitted(Step(s, acts[0]), acts[1..])
  }

  function Pass(s: State, acts: seq<Act>): State
    requires Permitted(s, acts)
    decreases |acts|
  {
    if acts == [] then s else Pass(Step(s, acts[0]), acts[1..])
  }

  ghost predicate Went(s: State, acts: seq<Act>, s': State) {
    Own(acts) && Permitted(s, acts) && s' == Pass(s, acts)
  }

  lemma {:induction false} PassAppend(s: State, acts: seq<Act>, more: seq<Act>)
    requires Permitted(s, acts) && Permitted(Pass(s, acts), more)
    ensures Permitted(s, acts + more) && Pass(s, acts + more) == Pass(Pass(s, acts), more)
    decreases |acts|
  {
    if acts == [] {
      assert acts + more == more;
    } else {
      assert (acts + more)[1..] == acts[1..] + more;
      PassAppend(Step(s, acts[0]), acts[1..], more);
    }
  }

  lemma {:induction false} PossiblePasses(s: State, acts: seq<Act>)
    requires Possible(s, acts)
    ensures Permitted(s, acts) && Pass(s, acts) == Run(s, acts)
    decreases |acts|
  {
    if acts != [] { PossiblePasses(Step(s, acts[0]), acts[1..]); }
  }

  lemma RanWent(s: State, acts: seq<Act>, s': State)
    requires Ran(s, acts, s')
    ensures Went(s, acts, s')
  {
    PossiblePasses(s, acts);
  }

  lemma WentThen(s: State, acts: seq<Act>, s1: State, more: seq<Act>, s2: State)
    requires Went(s, acts, s1) && Went(s1, more, s2)
    ensures Went(s, acts + more, s2)
  {
    OwnAppend(acts, more);
    PassAppend(s, acts, more);
  }

  lemma WentStep(s: State, a: Act, s': State)
    requires OwnAct(a) && Allowed(s, a) && s' == Step(s, a)
    ensures Went(s, [a], s')
  {
    assert [a][1..] == [];
    assert Permitted(Step(s, a), []);
  }

  lemma WentMore(s: State, acts: seq<Act>, s1: State, a: Act, s2: State)
    requires OwnAct(a) && Went(s, acts, s1) && Allowed(s1, a) && s2 == Step(s1, a)
    ensures Went(s, acts + [a], s2)
  {
    WentStep(s1, a, s2);
    WentThen(s, acts, s1, [a], s2);
  }

  /** Without a failed DEEP_SLEEP transfer the invariant is kept. */
  lemma WentKeepsInv(s: State, acts: seq<Act>, s': State)
    requires Inv(s) && Went(s, acts, s') && Possible(s, acts)
    ensures Inv(s')
  {
    PossiblePasses(s, acts);
    RunKeepsInv(s, acts);
  }

  function One(b: bool): nat { if b then 1 else 0 }

  /** How many times a node is listed anywhere. */
  function Places(q: Queues, id: nat): nat {
    multiset(q.free)[id] + multiset(q.pending)[id] + One(q.cur == Some(id))
    + One(id in q.filling) + One(q.inHand == Some(id)) + One(id in q.done)
  }

  lemma PlacesCount(q: Queues, id: nat)
    ensures Whereabouts(q)[id] == Places(q, id)
  {}

  lemma InAllNodes(id: nat)
    ensures multiset(ALL_NODES)[id] == One(id < 10)
  {}

  lemma OnePlace(q: Queues, id: nat)
    requires Conserved(q)
    ensures Places(q, id) == One(id < 10)
  {
    PlacesCount(q, id);
    InAllNodes(id);
  }

  /** Conservation: whatever happens, each command node is in one place, and in one only. */
  lemma EveryNodeInOnePlace(s: State, acts: seq<Act>, id: nat)
    requires Reached(s, acts)
    ensures Places(s.q, id) == One(id < 10)
  {
    ReachedInv(s, acts);
    OnePlace(s.q, id);
  }

  // --------------------------------------------------- what others do to the main thread

  /** From one state to the other, in as far as the main thread's unlocked reads can tell */
  predicate OnlyWoken(s: State, s': State) {
    && (s'.power.psstate == s.power.psstate || (s.power.psstate == Sleep && s'.power.psstate == Awake))
    && (s'.link.dnld == s.link.dnld || s'.link.dnld == ResReceived)
    && s'.power.deepSleep == s.power.deepSleep && s'.q.cur == s.q.cur && s'.pc == s.pc
  }

  lemma OtherOnlyWakes(s: State, a: Act, s': State)
    requires Allowed(s, a) && !a.Main? && s' == Step(s, a)
    ensures OnlyWoken(s, s')
  {}

  predicate NotMain(acts: seq<Act>) { acts != [] ==> !acts[0].Main? && NotMain(acts[1..]) }

  /** Whatever the others do while the main thread stands still, it can only find the device woken and
      the interface free. */
  lemma {:induction false} OthersOnlyWake(s: State, acts: seq<Act>)
    requires Possible(s, acts) && NotMain(acts)
    ensures OnlyWoken(s, Run(s, acts))
    decreases |acts|
  {
    if acts != [] {
      OtherOnlyWakes(s, acts[0], Step(s, acts[0]));
      OthersOnlyWake(Step(s, acts[0]), acts[1..]);
    }
  }

  /** main.c:590-598 as the driver makes the reads: psstate, is_deep_sleep, dnld_sent and cur_cmd, each
      at its own moment */
  function GateReads(s0: State, s1: State, s2: State, s3: State): Pc {
    if Asleep(s0.power.psstate) then Top
    else if s1.power.deepSleep then Top
    else if s2.link.dnld != ResReceived then DataStage
    else if s3.q.cur != None then DataStage
    else Exec
  }

  /** The separate reads find what one look at one of these moments would have found. */
  lemma GateReadsOnce(s: State, acts1: seq<Act>, acts2: seq<Act>, acts3: seq<Act>)
    requires s.pc == Gate && NotMain(acts1) && NotMain(acts2) && NotMain(acts3)
    requires Possible(s, acts1) && Possible(Run(s, acts1), acts2)
    requires Possible(Run(Run(s, acts1), acts2), acts3)
    ensures var s1 := Run(s, acts1); var s2 := Run(s1, acts2); var s3 := Run(s2, acts3);
      GateReads(s, s1, s2, s3) in [Onward(s), Onward(s1), Onward(s2), Onward(s3)]
  {
    OthersOnlyWake(s, acts1);
    OthersOnlyWake(Run(s, acts1), acts2);
    OthersOnlyWake(Run(Run(s, acts1), acts2), acts3);
  }

  // ----------------------------------------------------------------------- sleep

  predicate Wakes(a: Act) { a.QueueEvent? || a.NotifyResponse? }

  lemma LookingAsleep(s: State)
    requires Inv(s) && s.power.psstate == Sleep
    ensures !Sending(s.pc) && !Choosing(s.pc) && !s.pc.HandleEvent?
    ensures !s.pc.Confirm2? && !s.pc.Confirm3? && !s.pc.RespStart?
  {}

  lemma MainAsleep(s: State, ok: bool, sent: bool, s': State)
    requires Inv(s) && s.power.psstate == Sleep && s' == MainStep(s, ok, sent)
    ensures s'.power.psstate == Sleep && s'.log.wire == s.log.wire
  {
    LookingAsleep(s);
  }

  /** In SLEEP nothing is handed to the card, and it ends exactly with an event or a response. */
  lemma SleepEndsWith(s: State, a: Act, s': State)
    requires Inv(s) && s.power.psstate == Sleep && Enabled(s, a) && s' == Step(s, a)
    ensures s'.power.psstate == Sleep <==> !Wakes(a)
    ensures s'.log.wire == s.log.wire
  {
    if a.Main? { MainAsleep(s, a.ok, a.sent, s'); }
  }

  lemma {:induction false} SleepLastsFrom(s: State, acts: seq<Act>)
    requires Inv(s) && s.power.psstate == Sleep && Possible(s, acts)
    requires forall i :: 0 <= i < |acts| ==> !Wakes(acts[i])
    ensures Run(s, acts).power.psstate == Sleep && Run(s, acts).log.wire == s.log.wire
    decreases |acts|
  {
    if acts != [] {
      var s' := Step(s, acts[0]);
      SleepEndsWith(s, acts[0], s');
      StepKeepsInv(s, acts[0], s');
      SleepLastsFrom(s', acts[1..]);
    }
  }

  /** Sleep safety: asleep, the driver has nothing to do and waits for no answer. */
  lemma SleepIsSafe(s: State, acts: seq<Act>)
    requires Reached(s, acts) && s.power.psstate == Sleep
    ensures s.inbox.events == [] && At(s.inbox, s.inbox.respIdx) == None && s.q.cur == None
  {
    ReachedInv(s, acts);
  }

  /** Sleep lasts until an event or a response, and until then nothing goes to the card. */
  lemma SleepLasts(s: State, before: seq<Act>, acts: seq<Act>)
    requires Reached(s, before) && s.power.psstate == Sleep && Possible(s, acts)
    requires forall i :: 0 <= i < |acts| ==> !Wakes(acts[i])
    ensures Run(s, acts).power.psstate == Sleep && Run(s, acts).log.wire == s.log.wire
  {
    ReachedInv(s, before);
    SleepLastsFrom(s, acts);
  }

  // ------------------------------------------------------- the card, the queue, answers

  /** The gate: nothing goes to the card while another transfer is under way, nor in SLEEP; data
      goes only to a card that is awake; a command only in FULL_POWER, or in AWAKE if it is one of
      the three allowed there. */
  lemma NothingPassesTheGate(s: State, acts: seq<Act>, i: nat)
    requires Reached(s, acts) && i < |s.log.wire|
    ensures s.log.wire[i].dnld == ResReceived && s.log.wire[i].ps != Sleep
    ensures s.log.wire[i].what == Frame ==> s.log.wire[i].ps == FullPower || s.log.wire[i].ps == Awake
    ensures s.log.wire[i].what.Cmd? ==> GateOpen(s.log.wire[i].what.cmd, s.log.wire[i].ps)
    ensures s.log.wire[i].what == ConfirmSleep ==> s.log.wire[i].ps == PreSleep
  {
    ReachedInv(s, acts);
    assert TransferOk(s.log.wire[i]);
  }

  lemma AnswerRecent(s: State, r: Response)
    requires CurrentNumbered(s.q, s.link.seqnum, s.log) && r.answers <= s.log.submissions && Accepted(s.q, r)
    ensures r.answers == s.log.submissions || r.answers + 0x1_0000 <= s.log.submissions
  {
    SameWrap(r.answers, s.log.submissions);
  }

  /** Stale responses: a response is taken as the answer to the current command only if the card
      was answering that command, or one at least 65536 submissions ago. */
  lemma StaleResponsesRefused(s: State, acts: seq<Act>, r: Response)
    requires Reached(s, acts) && Enabled(s, NotifyResponse(r)) && Accepted(s.q, r)
    ensures r.answers == s.log.submissions || r.answers + 0x1_0000 <= s.log.submissions
  {
    ReachedInv(s, acts);
    AnswerRecent(s, r);
  }

  lemma OnlyAnswersTaken(s: State, acts: seq<Act>, i: nat)
    requires Reached(s, acts) && i < |s.log.matches|
    ensures s.log.matches[i].answered == s.log.matches[i].current
            || s.log.matches[i].answered + 0x1_0000 <= s.log.matches[i].current
  {
    ReachedInv(s, acts);
    assert MatchOk(s.log.matches[i]);
  }
}
