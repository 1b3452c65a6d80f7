/** What becomes of node conservation when the transfer of a DEEP_SLEEP command fails. */
module LbsDeepSleep {
  import opened Wrappers
  import opened LbsCommand
  import opened LbsCommandLaws
  import opened LbsCommandRuns
  import opened LbsReach

  // --------------------------------------------------- the node is given away again

  /** Another caller asks for a node. */
  const ASK := Call(Plain(0), false)

  function Asks(n: nat): seq<Act> { if n == 0 then [] else [ASK] + Asks(n - 1) }

  /** The failed command is completed; its node is at the end of the free list, blank. */
  predicate Returned(s: State, id: nat) {
    && s.pc == Submit3(id, DeepSleep) && !s.power.deepSleep && s.q.inHand == None
    && s.q.free != [] && s.q.free[|s.q.free| - 1] == id
    && id !in s.q.pending && id !in s.q.done
  }

  /** The node is with a new caller, and no other is free. */
  predicate GivenAway(s: State, id: nat) {
    && s.pc == Submit3(id, DeepSleep) && s.q.inHand == None && s.q.free == []
    && id in s.q.filling && !Waited(s.q, id) && id !in s.q.pending && id !in s.q.done
  }

  lemma AskOne(s: State, id: nat)
    requires Returned(s, id)
    ensures Step(s, ASK).q.free == s.q.free[1..]
    ensures if |s.q.free| == 1 then GivenAway(Step(s, ASK), id) else Returned(Step(s, ASK), id)
  {}

  /** As many callers as there are free nodes: the last of them gets the node. */
  lemma {:induction false} AskAll(s: State, id: nat)
    requires Returned(s, id)
    ensures Possible(s, Asks(|s.q.free|)) && GivenAway(Run(s, Asks(|s.q.free|)), id)
    decreases |s.q.free|
  {
    AskOne(s, id);
    var acts := Asks(|s.q.free|);
    assert acts[0] == ASK && acts[1..] == Asks(|s.q.free| - 1);
    if |s.q.free| == 1 {
      assert Possible(Step(s, ASK), []);
    } else {
      AskAll(Step(s, ASK), id);
    }
  }

  // ----------------------------------------------------------- completed once, twice

  /** A node that is completed again while another caller is filling it is in two places. */
  lemma CompletedWhileFilling(q: Queues, id: nat)
    requires id in q.filling && id !in q.free && id !in q.pending && id !in q.done
    requires q.inHand != Some(id) && !Waited(q, id)
    ensures Places(Complete(q, id), id) == 2
  {
    RemoveAbsent(q.free, id);
    RemoveAbsent(q.pending, id);
  }

  lemma SecondCompletion(s: State, id: nat)
    requires GivenAway(s, id)
    ensures Places(Step(s, GO).q, id) == 2
  {
    CompletedWhileFilling(s.q, id);
    assert Step(s, GO) == Submitted(s, id, DeepSleep);
  }

  /** The transfer of a DEEP_SLEEP command has failed. */
  predicate Failed(s: State, id: nat) {
    && s.pc == SubmitFail(id, DeepSleep) && !s.power.deepSleep && s.q.inHand == None && s.q.cur == Some(id)
    && id !in s.q.pending && id !in s.q.done && id !in s.q.free
  }

  lemma FailureLeaves(s: State, id: nat, sent: bool)
    requires Inv(s) && s.pc == Submit2(id) && CmdOf(s.q, id) == DeepSleep
    ensures Failed(Step(s, Main(false, sent)), id)
  {
    CurrentAlone(s.q, id);
    assert Step(s, Main(false, sent)) == SendCommand(s, id, false, sent);
  }

  lemma FirstCompletion(s: State, id: nat)
    requires Failed(s, id) && !Waited(s.q, id)
    ensures Returned(Step(s, GO), id)
  {
    CompleteUnwaited(s.q, id);
    RemoveAbsent(s.q.pending, id);
    assert Step(s, GO) == FailCommand(s, id, DeepSleep);
  }

  lemma FirstCompletionWaited(s: State, id: nat)
    requires Failed(s, id) && Waited(s.q, id)
    ensures Enabled(Step(s, GO), CleanUp(id)) && Returned(Step(Step(s, GO), CleanUp(id)), id)
  {
    CompleteWaited(s.q, id);
    RemoveAbsent(s.q.pending, id);
    assert Step(s, GO) == FailCommand(s, id, DeepSleep);
  }

  /** Its caller, if it has one, returns the node. */
  lemma ReturnNode(s: State, id: nat) returns (acts: seq<Act>)
    requires Failed(s, id)
    ensures Possible(s, acts) && Returned(Run(s, acts), id)
  {
    RunOne(s, GO);
    if Waited(s.q, id) {
      FirstCompletionWaited(s, id);
      RunOne(Step(s, GO), CleanUp(id));
      RunAppend(s, [GO], [CleanUp(id)]);
      acts := [GO] + [CleanUp(id)];
    } else {
      FirstCompletion(s, id);
      acts := [GO];
    }
  }

  /** From any state about to send a DEEP_SLEEP command, if the transfer fails, permitted actions
      lead to a second completion that puts the command's node in two places. */
  lemma FailedDeepSleepListsTwice(s: State, id: nat, sent: bool) returns (acts: seq<Act>)
    requires Inv(s) && s.pc == Submit2(id) && CmdOf(s.q, id) == DeepSleep
    ensures var s1 := Step(s, Main(false, sent)); Possible(s1, acts) && Places(Run(s1, acts).q, id) == 2
  {
    var s1 := Step(s, Main(false, sent));
    FailureLeaves(s, id, sent);
    var back := ReturnNode(s1, id);
    var s2 := Run(s1, back);
    AskAll(s2, id);
    var asks := Asks(|s2.q.free|);
    RunAppend(s1, back, asks);
    var s3 := Run(s2, asks);
    SecondCompletion(s3, id);
    RunOne(s3, GO);
    RunAppend(s1, back + asks, [GO]);
    acts := back + asks + [GO];
  }

  // ------------------------------------------------------------------- exactly when

  /** Every node is in one place, and stays so whatever happens next. */
  ghost predicate StaysConserved(s: State) {
    forall acts: seq<Act>, id: nat :: Possible(s, acts) ==> Places(Run(s, acts).q, id) == One(id < 10)
  }

  /** In a reached state, an action leaves conservation intact for good if and only if it is not
      the failure of a DEEP_SLEEP transfer. */
  lemma ConservedIff(s: State, before: seq<Act>, a: Act)
    requires Reached(s, before) && Allowed(s, a)
    ensures StaysConserved(Step(s, a)) <==> !DeepSleepFails(s, a)
  {
    ReachedInv(s, before);
    if DeepSleepFails(s, a) {
      var acts := FailedDeepSleepListsTwice(s, s.pc.id, a.sent);
      assert Possible(Step(s, a), acts) && Places(Run(Step(s, a), acts).q, s.pc.id) == 2;
    } else {
      StepKeepsInv(s, a, Step(s, a));
      forall acts: seq<Act>, id: nat | Possible(Step(s, a), acts)
        ensures Places(Run(Step(s, a), acts).q, id) == One(id < 10)
      {
        RunKeepsInv(Step(s, a), acts);
        OnePlace(Run(Step(s, a), acts).q, id);
      }
    }
  }

  /** States about to send a DEEP_SLEEP command are reached. */
  lemma DeepSleepIsReached() returns (s: State, acts: seq<Act>)
    ensures Reached(s, acts) && s.pc == Submit2(0) && CmdOf(s.q, 0) == DeepSleep
  {
    s, acts := SubmissionIsReached(DeepSleep);
  }
}
