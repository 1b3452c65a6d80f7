/** What becomes of the mark that the command timer sets: exactly when the main thread still finds it. */
module LbsTimeout {
  import opened Wrappers
  import opened LbsCommand
  import opened LbsCommandLaws
  import opened LbsCommandRuns
  import opened LbsReach

  /** The steps that take a mark away: forgetting it after the check, and an accepted answer */
  predicate Wipes(s: State, a: Act) {
    a.Main? && (s.pc == TimeoutClear || TakesAnswer(s))
  }

  predicate TakesAnswer(s: State) {
    s.pc.RespStart? && At(s.inbox, s.pc.idx).Some? && Accepted(s.q, At(s.inbox, s.pc.idx).value)
  }

  lemma AnswerMark(s: State, s': State)
    requires Answering(s.pc) && s' == AnswerStep(s)
    ensures s'.link.cmdTimedOut == (s.link.cmdTimedOut && !TakesAnswer(s))
    ensures |s'.log.matches| == |s.log.matches| + One(TakesAnswer(s))
  {}

  lemma ElsewhereMark(s: State, ok: bool, sent: bool, s': State)
    requires !Answering(s.pc) && s' == MainStep(s, ok, sent)
    ensures s'.link.cmdTimedOut == (s.link.cmdTimedOut && s.pc != TimeoutClear)
    ensures s'.log.matches == s.log.matches
  {}

  lemma MainMark(s: State, ok: bool, sent: bool, s': State)
    requires s' == MainStep(s, ok, sent)
    ensures s'.link.cmdTimedOut == (s.link.cmdTimedOut && !Wipes(s, Main(ok, sent)))
    ensures |s'.log.matches| == |s.log.matches| + One(TakesAnswer(s))
  {
    if Answering(s.pc) { AnswerMark(s, s'); } else { ElsewhereMark(s, ok, sent, s'); }
  }

  /** A mark stays until one of them; only the timer sets one. */
  lemma StepMark(s: State, a: Act, s': State)
    requires Allowed(s, a) && s' == Step(s, a) && a != CmdTimeout
    ensures s'.link.cmdTimedOut == (s.link.cmdTimedOut && !Wipes(s, a))
    ensures |s'.log.matches| == |s.log.matches| + One(a.Main? && TakesAnswer(s))
  {
    if a.Main? { MainMark(s, a.ok, a.sent, s'); }
  }

  /** The mark is forgotten only right after it was looked at. */
  lemma ClearFollowsCheck(s: State, a: Act, s': State)
    requires Allowed(s, a) && s' == Step(s, a) && s.pc != TimeoutCheck && s.pc != TimeoutClear
    ensures s'.pc != TimeoutClear
  {}

  /** The main thread comes to its check for a timeout with the last of the actions. */
  predicate ComesToCheck(s: State, acts: seq<Act>)
    requires Possible(s, acts)
    decreases |acts|
  {
    if acts == [] then s.pc == TimeoutCheck
    else s.pc != TimeoutCheck && ComesToCheck(Step(s, acts[0]), acts[1..])
  }

  predicate TimerQuiet(acts: seq<Act>) { acts != [] ==> acts[0] != CmdTimeout && TimerQuiet(acts[1..]) }

  lemma {:induction false} MatchesGrow(s: State, acts: seq<Act>)
    requires Possible(s, acts) && TimerQuiet(acts)
    ensures |Run(s, acts).log.matches| >= |s.log.matches|
    ensures !s.link.cmdTimedOut ==> !Run(s, acts).link.cmdTimedOut
    decreases |acts|
  {
    if acts != [] {
      var s' := Step(s, acts[0]);
      StepMark(s, acts[0], s');
      MatchesGrow(s', acts[1..]);
    }
  }

  /** A mark, once set, is found at the next check if and only if the main thread was not just about to
      forget it and takes no answer on the way. */
  lemma {:induction false} MarkSurvivesIff(s: State, acts: seq<Act>)
    requires s.link.cmdTimedOut && Possible(s, acts) && ComesToCheck(s, acts) && TimerQuiet(acts)
    ensures Run(s, acts).link.cmdTimedOut <==>
      s.pc != TimeoutClear && |Run(s, acts).log.matches| == |s.log.matches|
    decreases |acts|
  {
    if acts != [] {
      var a, s' := acts[0], Step(s, acts[0]);
      StepMark(s, a, s');
      MatchesGrow(s', acts[1..]);
      if Wipes(s, a) {
        assert !Run(s', acts[1..]).link.cmdTimedOut;
      } else {
        if s.pc != TimeoutClear { ClearFollowsCheck(s, a, s'); } else { assert s'.pc == TimeoutClear; }
        MarkSurvivesIff(s', acts[1..]);
      }
    }
  }

  /** Found at the check, the mark completes the current command. */
  lemma MarkCompletes(s: State)
    requires Inv(s) && s.pc == TimeoutCheck && s.link.cmdTimedOut && s.q.cur.Some?
    ensures Step(s, GO).q == Complete(s.q, s.q.cur.value) && Step(s, GO).q.cur == None
  {}

  /** The timer goes off between the check and the clearing of the mark: the command stays current, and
      nothing remembers that it has timed out. */
  predicate LosesTimeout(s: State) { s.pc == TimeoutClear && s.q.cur.Some? }

  lemma TimeoutLost(s: State, s1: State, s2: State)
    requires LosesTimeout(s) && s1 == Step(s, CmdTimeout) && s2 == Step(s1, GO)
    ensures s1.link.cmdTimedOut && !s2.link.cmdTimedOut && s2.q == s.q && s2.q.cur.Some?
  {}

  // ------------------------------------------------------------- it does happen

  /** The command is with the card, and the main thread goes around once. */
  predicate Underway(s: State) {
    && s.q.cur == Some(0) && 0 in s.q.nodes && CmdOf(s.q, 0) == Plain(0)
    && s.power == Power(FullPower, false, false, false) && s.settings.fwReady
    && !s.link.txPending && !s.link.cmdTimedOut && s.inbox == Inbox(None, None, false, [])
  }

  function Distance(pc: Pc): nat {
    match pc
    case Submit2(_) => 7
    case Submit3(_, _) => 6
    case DataStage => 5
    case Top => 4
    case EventLoop => 3
    case AfterEvents => 2
    case TimeoutCheck => 1
    case _ => 0
  }

  predicate OnItsWay(pc: Pc) {
    pc == Submit2(0) || pc == Submit3(0, Plain(0)) || pc == DataStage || pc == Top || pc == EventLoop
    || pc == AfterEvents || pc == TimeoutCheck
  }

  lemma GoesAround(s: State, s': State)
    requires Underway(s) && OnItsWay(s.pc) && s' == Step(s, GO)
    ensures Underway(s') && (OnItsWay(s'.pc) || s'.pc == TimeoutClear) && Distance(s'.pc) < Distance(s.pc)
  {}

  lemma {:induction false} WalkToClear(s: State, acts: seq<Act>) returns (s': State, acts': seq<Act>)
    requires Reached(s, acts) && Underway(s) && (OnItsWay(s.pc) || s.pc == TimeoutClear)
    ensures Reached(s', acts') && Underway(s') && s'.pc == TimeoutClear
    decreases Distance(s.pc)
  {
    if s.pc == TimeoutClear {
      s', acts' := s, acts;
    } else {
      var t := Step(s, GO);
      GoesAround(s, t);
      ReachedMore(s, acts, GO, t);
      s', acts' := WalkToClear(t, acts + [GO]);
    }
  }

  /** States in which a timeout gets lost are reached. */
  lemma LosingTimeoutIsReached() returns (s: State, acts: seq<Act>)
    ensures Reached(s, acts) && LosesTimeout(s)
  {
    s, acts := SubmissionIsReached(Plain(0));
    s, acts := WalkToClear(s, acts);
  }
}
