/** A run in which a caller queues a command and the main thread comes to submit it. */
module LbsReach {
  import opened Wrappers
  import opened LbsCommand
  import opened LbsCommandLaws
  import opened LbsCommandRuns

  lemma ReachedMore(s: State, acts: seq<Act>, a: Act, s': State)
    requires Reached(s, acts) && Enabled(s, a) && s' == Step(s, a)
    ensures Reached(s', acts + [a])
  {
    RunOne(s, a);
    RunAppend(Init(), acts, [a]);
  }

  /** A caller has queued a command, and the firmware is ready. */
  predicate Queued(s: State, cmd: Command) {
    && s.q.pending == [0] && s.q.cur == None && CmdOf(s.q, 0) == cmd && 0 in s.q.nodes
    && s.power == Power(FullPower, false, false, false) && s.settings.fwReady
    && s.link == Link(ResReceived, 0, false, false)
    && s.inbox == Inbox(None, None, false, [])
  }

  lemma QueueOne(cmd: Command) returns (s: State, acts: seq<Act>)
    ensures Reached(s, acts) && Queued(s, cmd) && s.pc == Top
  {
    var s0 := Init();
    var ready := User(Settings(true, false, false, false, true), false);
    var s1 := Step(s0, ready);
    ReachedMore(s0, [], ready, s1);
    var s2 := Step(s1, Call(cmd, true));
    ReachedMore(s1, [] + [ready], Call(cmd, true), s2);
    var s3 := Step(s2, Place(0));
    ReachedMore(s2, [] + [ready] + [Call(cmd, true)], Place(0), s3);
    s := Step(s3, Insert(0));
    acts := [] + [ready] + [Call(cmd, true)] + [Place(0)] + [Insert(0)];
    ReachedMore(s3, [] + [ready] + [Call(cmd, true)] + [Place(0)], Insert(0), s);
  }

  /** Where the main thread goes next with the queued command */
  function NextPc(pc: Pc): Pc {
    match pc
    case Top => EventLoop
    case EventLoop => AfterEvents
    case AfterEvents => TimeoutCheck
    case TimeoutCheck => TimeoutClear
    case TimeoutClear => PreSleepCheck
    case PreSleepCheck => Gate
    case Gate => Exec
    case Exec => Peeked(0)
    case Peeked(_) => Unlink(0)
    case _ => pc
  }

  predicate OnTheWay(pc: Pc) {
    pc == Top || pc == EventLoop || pc == AfterEvents || pc == TimeoutCheck || pc == TimeoutClear
    || pc == PreSleepCheck || pc == Gate || pc == Exec || pc == Peeked(0)
  }

  lemma LookStep(s: State, cmd: Command, s': State)
    requires Queued(s, cmd) && OnTheWay(s.pc) && !Checking(s.pc) && !Choosing(s.pc) && s' == s.(pc := Onward(s))
    ensures Queued(s', cmd) && s'.pc == NextPc(s.pc)
  {}

  lemma ActStep(s: State, cmd: Command, s': State)
    requires Queued(s, cmd) && OnTheWay(s.pc) && (Checking(s.pc) || Choosing(s.pc))
    requires s' == if Checking(s.pc) then CheckStep(s) else ChooseStep(s)
    ensures Queued(s', cmd) && s'.pc == NextPc(s.pc)
  {}

  lemma WayStep(s: State, cmd: Command, s': State)
    requires Queued(s, cmd) && OnTheWay(s.pc) && s' == Step(s, GO)
    ensures Queued(s', cmd) && s'.pc == NextPc(s.pc)
  {
    if Checking(s.pc) || Choosing(s.pc) { ActStep(s, cmd, s'); } else { LookStep(s, cmd, s'); }
  }

  /** How far it is to the point where the command is unlinked */
  function Distance(pc: Pc): nat {
    if pc == Top then 9 else if pc == EventLoop then 8 else if pc == AfterEvents then 7
    else if pc == TimeoutCheck then 6 else if pc == TimeoutClear then 5 else if pc == PreSleepCheck then 4
    else if pc == Gate then 3 else if pc == Exec then 2 else if pc == Peeked(0) then 1 else 0
  }

  lemma WayShortens(pc: Pc)
    requires OnTheWay(pc)
    ensures Distance(NextPc(pc)) < Distance(pc) && (OnTheWay(NextPc(pc)) || NextPc(pc) == Unlink(0))
  {}

  lemma {:induction false} WalkToUnlink(s: State, cmd: Command, acts: seq<Act>)
    returns (s': State, acts': seq<Act>)
    requires Reached(s, acts) && Queued(s, cmd) && (OnTheWay(s.pc) || s.pc == Unlink(0))
    ensures Reached(s', acts') && Queued(s', cmd) && s'.pc == Unlink(0)
    decreases Distance(s.pc)
  {
    if s.pc == Unlink(0) {
      s', acts' := s, acts;
    } else {
      var t := Step(s, GO);
      WayStep(s, cmd, t);
      WayShortens(s.pc);
      ReachedMore(s, acts, GO, t);
      s', acts' := WalkToUnlink(t, cmd, acts + [GO]);
    }
  }

  /** The command is current and about to be transferred. */
  predicate Submitting(s: State, cmd: Command) {
    && s.pc == Submit2(0) && s.q.cur == Some(0) && s.q.inHand == None && CmdOf(s.q, 0) == cmd && 0 in s.q.nodes
    && s.power == Power(FullPower, false, false, false) && s.settings.fwReady
    && s.link == Link(ResReceived, 1, false, false)
    && s.inbox == Inbox(None, None, false, [])
  }

  lemma UnlinkAndSubmit(s: State, cmd: Command)
    requires Queued(s, cmd) && s.pc == Unlink(0)
    ensures Enabled(Step(s, GO), GO) && Submitting(Step(Step(s, GO), GO), cmd)
  {
    assert Step(s, GO) == UnlinkStep(s, 0);
  }

  /** Any command can come to be submitted. */
  lemma SubmissionIsReached(cmd: Command) returns (s: State, acts: seq<Act>)
    ensures Reached(s, acts) && Submitting(s, cmd)
  {
    s, acts := QueueOne(cmd);
    s, acts := WalkToUnlink(s, cmd, acts);
    UnlinkAndSubmit(s, cmd);
    ReachedMore(s, acts, GO, Step(s, GO));
    ReachedMore(Step(s, GO), acts + [GO], GO, Step(Step(s, GO), GO));
    s, acts := Step(Step(s, GO), GO), acts + [GO] + [GO];
  }
}
