/** What becomes of the commands: the order in which they leave the queue, and that each is submitted
    and completed once. Told by their tickets, the places at which they joined the queue. */
module LbsHistory {
  import opened Wrappers
  import opened LbsCommand
  import opened LbsCommandLaws
  import opened LbsCommandRuns

  // ---------------------------------------------------------------- the invariant

  function Tickets(nodes: map<nat, Node>, list: seq<nat>): (t: seq<nat>)
    ensures |t| == |list|
  {
    if list == [] then [] else [TicketOf(nodes, list[0])] + Tickets(nodes, list[1..])
  }

  function HeldTicket(nodes: map<nat, Node>, o: Option<nat>): multiset<nat> {
    if o.Some? then multiset{TicketOf(nodes, o.value)} else multiset{}
  }

  function Upto(n: nat): seq<nat> { seq(n, i => i) }

  /** All commands that ever joined the queue: those that left it, in that order, then those that wait,
      from the head of the queue. */
  function Line(q: Queues): seq<nat> { q.h.left + Tickets(q.nodes, q.pending) }

  /** The commands that may be put at the head of the queue */
  predicate Jumps(cmd: Command) { cmd == PsMode(ExitPs) || cmd == WakeupConfirm }

  /** The node holds the command that joined the queue with its ticket. */
  predicate RecordedNode(q: Queues, id: nat) {
    id in q.nodes && q.nodes[id].ticket < |q.h.entered|
    && q.h.entered[q.nodes[id].ticket] == Entry(q.nodes[id].cmd, q.nodes[id].front)
  }

  predicate Recorded(q: Queues) {
    && (forall id :: id in q.pending ==> RecordedNode(q, id))
    && (q.cur.Some? ==> RecordedNode(q, q.cur.value))
    && (q.inHand.Some? ==> RecordedNode(q, q.inHand.value))
  }

  predicate Known(entered: seq<Entry>, line: seq<nat>) { forall a :: 0 <= a < |line| ==> line[a] < |entered| }

  /** Of the commands put at the tail, an earlier one stands before a later one. */
  predicate InOrder(entered: seq<Entry>, line: seq<nat>)
    requires Known(entered, line)
  {
    forall a, b :: 0 <= a < b < |line| && !entered[line[a]].front && !entered[line[b]].front ==> line[a] < line[b]
  }

  predicate Ordered(q: Queues) {
    && multiset(Line(q)) == multiset(Upto(|q.h.entered|))
    && Known(q.h.entered, Line(q)) && InOrder(q.h.entered, Line(q))
  }

  /** What left the queue is completed, current, or on its way to being so; what was submitted left it. */
  predicate Fates(q: Queues) {
    && multiset(q.h.left) == multiset(q.h.completed) + HeldTicket(q.nodes, q.cur) + HeldTicket(q.nodes, q.inHand)
    && multiset(q.h.submitted) + HeldTicket(q.nodes, q.inHand) <= multiset(q.h.left)
  }

  predicate Jumpers(q: Queues) {
    && (forall i :: 0 <= i < |q.h.entered| && q.h.entered[i].front ==> Jumps(q.h.entered[i].cmd))
    && (forall id :: id in q.filling && id in q.nodes && q.nodes[id].placed && q.nodes[id].front ==>
          Jumps(q.nodes[id].cmd))
  }

  /** The command was submitted, or is a PS_MODE command, which may be ignored. */
  predicate SentOrIgnored(q: Queues, t: nat) {
    t < |q.h.entered| && (q.h.entered[t].cmd.PsMode? || t in q.h.submitted)
  }

  predicate Sound(q: Queues) {
    && (q.cur.Some? ==> TicketOf(q.nodes, q.cur.value) in q.h.submitted)
    && (forall i :: 0 <= i < |q.h.completed| ==> SentOrIgnored(q, q.h.completed[i]))
  }

  /** Free nodes are clean, and only nodes somebody waits for are kept for their caller. */
  predicate Tidy(q: Queues) {
    && (forall id :: id in q.free ==> id in q.nodes && q.nodes[id] == CLEAN)
    && (forall id :: id in q.done ==> Waited(q, id))
  }

  predicate Kept(q: Queues) { Recorded(q) && Ordered(q) && Fates(q) && Jumpers(q) && Sound(q) && Tidy(q) }

  // -------------------------------------------------------------- nodes elsewhere

  lemma {:induction false} TicketsFrame(nodes: map<nat, Node>, nodes': map<nat, Node>, list: seq<nat>)
    requires forall i :: i in list ==> TicketOf(nodes', i) == TicketOf(nodes, i)
    ensures Tickets(nodes', list) == Tickets(nodes, list)
  {
    if list != [] { TicketsFrame(nodes, nodes', list[1..]); }
  }

  lemma {:induction false} TicketsAppend(nodes: map<nat, Node>, a: seq<nat>, b: seq<nat>)
    ensures Tickets(nodes, a + b) == Tickets(nodes, a) + Tickets(nodes, b)
  {
    if a == [] {
      assert a + b == b;
    } else {
      assert (a + b)[1..] == a[1..] + b;
      TicketsAppend(nodes, a[1..], b);
    }
  }

  /** The node is on no list that the order of commands depends on. */
  predicate Aside(q: Queues, id: nat) { id !in q.pending && q.cur != Some(id) && q.inHand != Some(id) }

  /** Only this node changes, and only the places of nodes that are free, being filled or done. */
  predicate ChangedAside(q: Queues, q': Queues, id: nat) {
    && Aside(q, id) && id in q'.nodes && q'.nodes == q.nodes[id := q'.nodes[id]]
    && q'.pending == q.pending && q'.cur == q.cur && q'.inHand == q.inHand && q'.h == q.h
  }

  predicate TidyAside(q: Queues, q': Queues, id: nat)
    requires id in q'.nodes
  {
    var n := q'.nodes[id];
    && (forall i :: i in q'.free ==> (i in q.free && i != id) || (i == id && n == CLEAN))
    && (forall i :: i in q'.done ==> i in q.done && i != id)
    && (forall i :: i in q'.filling ==>
          (i in q.filling && i != id) || (i == id && (n.placed && n.front ==> Jumps(n.cmd))))
  }

  lemma OrderAside(q: Queues, q': Queues, id: nat)
    requires Recorded(q) && Ordered(q) && Fates(q) && ChangedAside(q, q', id)
    ensures Recorded(q') && Ordered(q') && Fates(q')
  {
    TicketsFrame(q.nodes, q'.nodes, q.pending);
    assert Line(q') == Line(q);
    forall i | i in q.pending ensures RecordedNode(q', i) { assert RecordedNode(q, i); }
  }

  lemma RestAside(q: Queues, q': Queues, id: nat)
    requires Jumpers(q) && Sound(q) && Tidy(q) && ChangedAside(q, q', id) && TidyAside(q, q', id)
    ensures Jumpers(q') && Sound(q') && Tidy(q')
  {
    forall i | 0 <= i < |q.h.completed| ensures SentOrIgnored(q', q.h.completed[i]) {
      assert SentOrIgnored(q, q.h.completed[i]);
    }
    forall i | i in q'.done ensures Waited(q', i) { assert Waited(q, i); }
  }

  lemma KeptAside(q: Queues, q': Queues, id: nat)
    requires Kept(q) && ChangedAside(q, q', id) && TidyAside(q, q', id)
    ensures Kept(q')
  {
    OrderAside(q, q', id);
    RestAside(q, q', id);
  }

  lemma FillKept(q: Queues, cmd: Command, waited: bool)
    requires Conserved(q) && Kept(q) && q.free != []
    ensures Kept(Fill(q, cmd, waited))
  {
    var id, q' := q.free[0], Fill(q, cmd, waited);
    FreeAlone(q, id);
    FreeOnce(q);
    KeptAside(q, q', id);
  }

  lemma FreeOnce(q: Queues)
    requires Conserved(q) && q.free != []
    ensures q.free[0] !in q.free[1..]
  {
    Alone(q, q.free[0]);
    assert q.free == [q.free[0]] + q.free[1..];
  }

  lemma ChooseKept(q: Queues, id: nat, ps: PsState)
    requires Conserved(q) && Kept(q) && id in q.nodes && id in q.filling
    ensures Kept(ChoosePlace(q, id, ps))
  {
    FillingAlone(q, id);
    KeptAside(q, ChoosePlace(q, id, ps), id);
  }

  /** A node that is on no list returns to the free ones. */
  lemma CleanUpKept(q: Queues, id: nat)
    requires Kept(q) && Aside(q, id) && id !in q.free && id !in q.done && id !in q.filling
    ensures Kept(CleanUpAndInsert(q, id))
  {
    KeptAside(q, CleanUpAndInsert(q, id), id);
  }

  lemma ReturnKept(q: Queues, id: nat)
    requires Conserved(q) && Kept(q) && id in q.done
    ensures Kept(CleanUpAndInsert(q.(done := q.done - {id}), id))
  {
    DoneAlone(q, id);
    KeptAside(q, CleanUpAndInsert(q.(done := q.done - {id}), id), id);
  }

  // -------------------------------------------------------------- joining the queue

  lemma UptoNext(n: nat)
    ensures Upto(n + 1) == Upto(n) + [n]
  {}

  lemma TicketsOne(nodes: map<nat, Node>, id: nat)
    ensures Tickets(nodes, [id]) == [TicketOf(nodes, id)]
  {
    assert [id][1..] == [];
    assert Tickets(nodes, []) == [];
  }

  /** The line after a command joined it */
  lemma InsertLine(q: Queues, id: nat, q': Queues)
    requires Placed(q, id) && id !in q.pending && q' == InsertPending(q, id)
    ensures Line(q') == if q.nodes[id].front
      then q.h.left + [|q.h.entered|] + Tickets(q.nodes, q.pending) else Line(q) + [|q.h.entered|]
  {
    TicketsFrame(q.nodes, q'.nodes, q.pending);
    TicketsOne(q'.nodes, id);
    TicketsAppend(q'.nodes, [id], q.pending);
    TicketsAppend(q'.nodes, q.pending, [id]);
  }

  /** A new last number, put anywhere, keeps the order of the others. */
  lemma JoinsInOrder(entered: seq<Entry>, a: seq<nat>, b: seq<nat>, e: Entry)
    requires Known(entered, a + b) && InOrder(entered, a + b) && (e.front || b == [])
    ensures Known(entered + [e], a + [|entered|] + b) && InOrder(entered + [e], a + [|entered|] + b)
  {
    var line, more := a + b, entered + [e];
    var line' := a + [|entered|] + b;
    forall i | 0 <= i < |line'|
      ensures line'[i] < |more| && (i < |a| ==> line'[i] == line[i]) && (i > |a| ==> line'[i] == line[i - 1])
      ensures i == |a| ==> line'[i] == |entered|
    {
      assert i > |a| ==> line'[i] == b[i - |a| - 1] == line[i - 1];
      assert i != |a| ==> line[if i > |a| then i - 1 else i] < |entered|;
    }
    forall i, j | 0 <= i < j < |line'| && !more[line'[i]].front && !more[line'[j]].front
      ensures line'[i] < line'[j]
    {
      var i', j' := if i > |a| then i - 1 else i, if j > |a| then j - 1 else j;
      if i != |a| && j != |a| { assert line[i'] < line[j']; }
    }
  }

  /** The same for the line as a whole: every command is still in it once. */
  lemma JoinsLine(q: Queues, q': Queues, a: seq<nat>, b: seq<nat>, e: Entry)
    requires Ordered(q) && Line(q) == a + b && (e.front || b == [])
    requires q'.h.entered == q.h.entered + [e] && Line(q') == a + [|q.h.entered|] + b
    ensures Ordered(q')
  {
    UptoNext(|q.h.entered|);
    JoinsInOrder(q.h.entered, a, b, e);
    assert multiset(a + [|q.h.entered|] + b) == multiset(a + b) + multiset{|q.h.entered|};
  }

  lemma InsertOrdered(q: Queues, id: nat)
    requires Ordered(q) && Placed(q, id) && id !in q.pending
    ensures Ordered(InsertPending(q, id))
  {
    var q', e := InsertPending(q, id), Entry(q.nodes[id].cmd, q.nodes[id].front);
    InsertLine(q, id, q');
    if e.front {
      JoinsLine(q, q', q.h.left, Tickets(q.nodes, q.pending), e);
    } else {
      assert Line(q) + [] == Line(q) && Line(q') == Line(q) + [|q.h.entered|] + [];
      JoinsLine(q, q', Line(q), [], e);
    }
  }

  lemma InsertRecorded(q: Queues, id: nat, q': Queues)
    requires Recorded(q) && Placed(q, id) && q.cur != Some(id) && q.inHand != Some(id) && q' == InsertPending(q, id)
    ensures Recorded(q')
  {
    forall i | i in q'.pending ensures RecordedNode(q', i) {
      if i != id { assert i in q.pending && RecordedNode(q, i); }
    }
  }

  lemma InsertSound(q: Queues, id: nat, q': Queues)
    requires Sound(q) && Placed(q, id) && q.cur != Some(id) && q' == InsertPending(q, id)
    ensures Sound(q')
  {
    forall i | 0 <= i < |q.h.completed| ensures SentOrIgnored(q', q.h.completed[i]) {
      assert SentOrIgnored(q, q.h.completed[i]);
    }
  }

  lemma InsertTidy(q: Queues, id: nat, q': Queues)
    requires Tidy(q) && Placed(q, id) && id !in q.free && q' == InsertPending(q, id)
    ensures Tidy(q')
  {
    forall i | i in q'.free ensures i in q'.nodes && q'.nodes[i] == CLEAN { assert i in q.free; }
    forall i | i in q'.done ensures Waited(q', i) { assert Waited(q, i); }
  }

  lemma InsertJumpers(q: Queues, id: nat, q': Queues)
    requires Jumpers(q) && Placed(q, id) && q' == InsertPending(q, id)
    ensures Jumpers(q')
  {}

  lemma InsertKept(q: Queues, id: nat)
    requires Conserved(q) && Kept(q) && Placed(q, id)
    ensures Kept(InsertPending(q, id))
  {
    var q' := InsertPending(q, id);
    FillingAlone(q, id);
    InsertOrdered(q, id);
    InsertRecorded(q, id, q');
    InsertSound(q, id, q');
    InsertTidy(q, id, q');
    InsertJumpers(q, id, q');
  }

  // -------------------------------------------------------------- leaving the queue

  /** Where a node with only jumpers before it stands in the queue */
  lemma {:induction false} Split(nodes: map<nat, Node>, list: seq<nat>, id: nat)
    returns (before: seq<nat>, after: seq<nat>)
    requires OnlyJumpersBefore(nodes, list, id)
    ensures list == before + [id] + after && Remove(list, id) == before + after
    ensures forall i :: 0 <= i < |before| ==> Jumped(nodes, before[i])
  {
    if list[0] == id {
      before, after := [], list[1..];
    } else {
      before, after := Split(nodes, list[1..], id);
      before := [list[0]] + before;
    }
  }

  predicate AllFront(entered: seq<Entry>, tickets: seq<nat>) {
    forall i :: 0 <= i < |tickets| ==> tickets[i] < |entered| && entered[tickets[i]].front
  }

  /** A command overtakes others that were put at the head. */
  lemma OvertakesInOrder(entered: seq<Entry>, left: seq<nat>, before: seq<nat>, t: nat, after: seq<nat>)
    requires AllFront(entered, before) && Known(entered, left + before + [t] + after)
    requires InOrder(entered, left + before + [t] + after)
    ensures Known(entered, left + [t] + before + after) && InOrder(entered, left + [t] + before + after)
  {
    var line, line', n, m := left + before + [t] + after, left + [t] + before + after, |left|, |before|;
    forall i | 0 <= i < |line'|
      ensures line'[i] == line[if i == n then n + m else if n < i <= n + m then i - 1 else i]
      ensures n < i <= n + m ==> line'[i] == before[i - n - 1]
    {}
    forall i, j | 0 <= i < j < |line'| && !entered[line'[i]].front && !entered[line'[j]].front
      ensures line'[i] < line'[j]
    {
      var i' := if i == n then n + m else if n < i <= n + m then i - 1 else i;
      var j' := if j == n then n + m else if n < j <= n + m then j - 1 else j;
      assert i' < j' && line[i'] < line[j'];
    }
  }

  lemma {:induction false} FrontTickets(q: Queues, list: seq<nat>)
    requires forall i :: 0 <= i < |list| ==> RecordedNode(q, list[i]) && Jumped(q.nodes, list[i])
    ensures AllFront(q.h.entered, Tickets(q.nodes, list))
  {
    if list != [] {
      assert RecordedNode(q, list[0]);
      FrontTickets(q, list[1..]);
    }
  }

  lemma TicketsSplit(nodes: map<nat, Node>, before: seq<nat>, id: nat, after: seq<nat>)
    ensures Tickets(nodes, before + [id] + after)
         == Tickets(nodes, before) + [TicketOf(nodes, id)] + Tickets(nodes, after)
  {
    TicketsAppend(nodes, before + [id], after);
    TicketsAppend(nodes, before, [id]);
    TicketsOne(nodes, id);
  }

  lemma SameMembers(left: seq<nat>, before: seq<nat>, t: nat, after: seq<nat>)
    ensures multiset(left + [t] + before + after) == multiset(left + before + [t] + after)
  {}

  lemma LeaveTickets(q: Queues, id: nat) returns (before: seq<nat>, after: seq<nat>)
    requires Recorded(q) && OnlyJumpersBefore(q.nodes, q.pending, id)
    ensures Tickets(q.nodes, q.pending) == before + [TicketOf(q.nodes, id)] + after
    ensures Tickets(q.nodes, Remove(q.pending, id)) == before + after && AllFront(q.h.entered, before)
  {
    var b, a := Split(q.nodes, q.pending, id);
    before, after := Tickets(q.nodes, b), Tickets(q.nodes, a);
    TicketsSplit(q.nodes, b, id, a);
    TicketsAppend(q.nodes, b, a);
    forall i | 0 <= i < |b| ensures RecordedNode(q, b[i]) { assert q.pending[i] == b[i]; }
    FrontTickets(q, b);
  }

  lemma Joined(left: seq<nat>, before: seq<nat>, t: nat, after: seq<nat>)
    ensures left + (before + [t] + after) == left + before + [t] + after
    ensures left + [t] + (before + after) == left + [t] + before + after
  {}

  lemma LeaveLine(q: Queues, id: nat) returns (before: seq<nat>, after: seq<nat>)
    requires Recorded(q) && OnlyJumpersBefore(q.nodes, q.pending, id)
    ensures var t := TicketOf(q.nodes, id);
      && Line(q) == q.h.left + before + [t] + after && AllFront(q.h.entered, before)
      && LeavePending(q, id).h == q.h.(left := q.h.left + [t])
      && Line(LeavePending(q, id)) == q.h.left + [t] + before + after
  {
    JumpersPresent(q.nodes, q.pending, id);
    before, after := LeaveTickets(q, id);
    Joined(q.h.left, before, TicketOf(q.nodes, id), after);
  }

  lemma LeaveOrdered(q: Queues, id: nat)
    requires Recorded(q) && Ordered(q) && OnlyJumpersBefore(q.nodes, q.pending, id)
    ensures Ordered(LeavePending(q, id)) && LeavePending(q, id).h.left == q.h.left + [TicketOf(q.nodes, id)]
  {
    var before, after := LeaveLine(q, id);
    OvertakesInOrder(q.h.entered, q.h.left, before, TicketOf(q.nodes, id), after);
    SameMembers(q.h.left, before, TicketOf(q.nodes, id), after);
  }

  lemma {:induction false} RemoveSubset(list: seq<nat>, id: nat, i: nat)
    requires i in Remove(list, id)
    ensures i in list
  {
    if list[0] != id && i != list[0] { RemoveSubset(list[1..], id, i); }
  }

  lemma RecordedLess(q: Queues, q': Queues, id: nat)
    requires Recorded(q) && q'.pending == Remove(q.pending, id) && q'.nodes == q.nodes && q'.h.entered == q.h.entered
    ensures forall i :: i in q'.pending ==> RecordedNode(q', i)
  {
    forall i | i in q'.pending ensures RecordedNode(q', i) {
      RemoveSubset(q.pending, id, i);
      assert RecordedNode(q, i);
    }
  }

  lemma UnlinkOrdered(q: Queues, id: nat, q': Queues)
    requires Recorded(q) && Ordered(q) && OnlyJumpersBefore(q.nodes, q.pending, id)
    requires q' == LeavePending(q, id).(inHand := Some(id))
    ensures Recorded(q') && Ordered(q')
  {
    LeaveOrdered(q, id);
    assert Line(q') == Line(LeavePending(q, id));
    RecordedLess(q, q', id);
    JumpersPresent(q.nodes, q.pending, id);
    assert RecordedNode(q, id);
  }

  lemma UnlinkFates(q: Queues, id: nat, q': Queues)
    requires Fates(q) && OnlyJumpersBefore(q.nodes, q.pending, id) && q.inHand == None
    requires q' == LeavePending(q, id).(inHand := Some(id))
    ensures Fates(q')
  {
    JumpersPresent(q.nodes, q.pending, id);
    assert q'.h.left == q.h.left + [TicketOf(q.nodes, id)];
  }

  lemma UnlinkRest(q: Queues, id: nat, q': Queues)
    requires Jumpers(q) && Sound(q) && Tidy(q) && q' == LeavePending(q, id).(inHand := Some(id))
    ensures Jumpers(q') && Sound(q') && Tidy(q')
  {
    forall i | 0 <= i < |q.h.completed| ensures SentOrIgnored(q', q.h.completed[i]) {
      assert SentOrIgnored(q, q.h.completed[i]);
    }
    forall i | i in q'.done ensures Waited(q', i) { assert Waited(q, i); }
  }

  lemma UnlinkKept(q: Queues, id: nat)
    requires Kept(q) && OnlyJumpersBefore(q.nodes, q.pending, id) && q.inHand == None
    ensures Kept(LeavePending(q, id).(inHand := Some(id)))
  {
    var q' := LeavePending(q, id).(inHand := Some(id));
    UnlinkOrdered(q, id, q');
    UnlinkFates(q, id, q');
    UnlinkRest(q, id, q');
  }

  lemma MakeCurrentKept(q: Queues, id: nat, n: nat)
    requires Conserved(q) && Kept(q) && q.inHand == Some(id) && q.cur == None
    ensures id in q.nodes && Kept(MakeCurrent(q, id, n))
  {
    InHandAlone(q, id);
    var q' := MakeCurrent(q, id, n);
    TicketsFrame(q.nodes, q'.nodes, q.pending);
    assert Line(q') == Line(q);
    forall i | i in q.pending ensures RecordedNode(q', i) { assert RecordedNode(q, i); }
    forall i | 0 <= i < |q.h.completed| ensures SentOrIgnored(q', q.h.completed[i]) {
      assert SentOrIgnored(q, q.h.completed[i]);
    }
    assert multiset(q'.h.submitted) == multiset(q.h.submitted) + multiset{q.nodes[id].ticket};
    forall i | i in q'.done ensures Waited(q', i) { assert Waited(q, i); }
  }

  // ---------------------------------------------------------------------- completion

  /** The current command, or one that is ignored at the head of the queue */
  predicate MayComplete(q: Queues, id: nat) { CanComplete(q, id) && (q.cur == Some(id) || CmdOf(q, id).PsMode?) }

  lemma TakenOrdered(q: Queues, id: nat)
    requires Conserved(q) && Kept(q) && MayComplete(q, id)
    ensures Ordered(Taken(q, id))
    ensures q.cur == Some(id) ==> id !in q.pending && Taken(q, id).h.left == q.h.left
    ensures q.cur != Some(id) ==> id in q.pending && Taken(q, id).h.left == q.h.left + [TicketOf(q.nodes, id)]
  {
    if q.cur == Some(id) {
      CurrentAlone(q, id);
      RemoveAbsent(q.pending, id);
      assert Line(Taken(q, id)) == Line(q);
    } else {
      JumpersPresent(q.nodes, q.pending, id);
      LeaveOrdered(q, id);
      assert Line(Taken(q, id)) == Line(LeavePending(q, id));
    }
  }

  lemma FatesOfCurrent(left: multiset<nat>, completed: multiset<nat>, t: nat, hand: multiset<nat>)
    requires left == completed + multiset{t} + hand
    ensures left == (completed + multiset{t}) + multiset{} + hand
  {}

  lemma FatesOfIgnored(left: multiset<nat>, completed: multiset<nat>, t: nat, hand: multiset<nat>,
                       submitted: multiset<nat>)
    requires left == completed + multiset{} + hand && submitted + hand <= left
    ensures left + multiset{t} == (completed + multiset{t}) + multiset{} + hand
    ensures submitted + hand <= left + multiset{t}
  {}

  lemma TakenFates(q: Queues, id: nat)
    requires Conserved(q) && Kept(q) && MayComplete(q, id)
    ensures Fates(Taken(q, id))
  {
    TakenOrdered(q, id);
    var q', t, hand := Taken(q, id), TicketOf(q.nodes, id), HeldTicket(q.nodes, q.inHand);
    assert q'.h.completed == q.h.completed + [t] && HeldTicket(q'.nodes, q'.inHand) == hand;
    if q.cur == Some(id) {
      FatesOfCurrent(multiset(q.h.left), multiset(q.h.completed), t, hand);
    } else {
      FatesOfIgnored(multiset(q.h.left), multiset(q.h.completed), t, hand, multiset(q.h.submitted));
    }
  }

  lemma TakenSound(q: Queues, id: nat)
    requires Kept(q) && MayComplete(q, id)
    ensures Sound(Taken(q, id))
  {
    var q', t := Taken(q, id), TicketOf(q.nodes, id);
    if q.cur != Some(id) { JumpersPresent(q.nodes, q.pending, id); }
    assert RecordedNode(q, id);
    assert SentOrIgnored(q', t);
    forall i | 0 <= i < |q'.h.completed| ensures SentOrIgnored(q', q'.h.completed[i]) {
      if i < |q.h.completed| { assert SentOrIgnored(q, q.h.completed[i]); }
    }
  }

  lemma TakenKept(q: Queues, id: nat)
    requires Conserved(q) && Kept(q) && MayComplete(q, id)
    ensures Kept(Taken(q, id))
  {
    var q' := Taken(q, id);
    TakenOrdered(q, id);
    TakenFates(q, id);
    TakenSound(q, id);
    RecordedLess(q, q', id);
    forall i | i in q'.done ensures Waited(q', i) { assert Waited(q, i); }
  }

  lemma CompleteKept(q: Queues, id: nat)
    requires Conserved(q) && Kept(q) && MayComplete(q, id)
    ensures Kept(Complete(q, id))
  {
    var q' := Taken(q, id);
    TakenKept(q, id);
    TakenConserved(q, id);
    NotListed(q', id);
    NotElsewhere(q', id);
    if Waited(q, id) {
      CompleteWaited(q, id);
      DoneKept(q', id);
    } else {
      CompleteUnwaited(q, id);
      CleanUpKept(q', id);
    }
  }

  lemma DoneKept(q: Queues, id: nat)
    requires Kept(q) && Waited(q, id)
    ensures Kept(q.(done := q.done + {id}))
  {
    var q' := q.(done := q.done + {id});
    assert Line(q') == Line(q);
    forall i | i in q'.pending ensures RecordedNode(q', i) { assert RecordedNode(q, i); }
    forall i | 0 <= i < |q.h.completed| ensures SentOrIgnored(q', q.h.completed[i]) {
      assert SentOrIgnored(q, q.h.completed[i]);
    }
  }

  lemma NotElsewhere(q: Queues, id: nat)
    requires ListsBut(q, id)
    ensures id !in q.filling && q.inHand != Some(id)
  {
    assert (Whereabouts(q) + multiset{id})[id] == multiset(ALL_NODES)[id];
  }

  lemma CompleteIfKept(q: Queues, id: Option<nat>, condition: bool)
    requires Conserved(q) && Kept(q) && (condition && id.Some? ==> MayComplete(q, id.value))
    ensures Kept(CompleteIf(q, id, condition))
  {
    if condition && id.Some? { CompleteKept(q, id.value); }
  }

  // ---------------------------------------------------------------------------- steps

  lemma StartKept(s: State, idx: bool)
    requires Inv(s) && Kept(s.q) && s.pc == RespStart(idx)
    ensures Kept(StartResponse(s, idx).q)
  {
    if At(s.inbox, idx).Some? {
      var r := At(s.inbox, idx).value;
      CompleteIfKept(s.q, s.q.cur, !MustWake(s.settings, r) && !Callback(r));
    }
  }

  lemma AnswerKept(s: State, q': Queues)
    requires Inv(s) && Kept(s.q) && Answering(s.pc) && q' == AnswerStep(s).q
    ensures Kept(q')
  {
    if s.pc.RespStart? {
      StartKept(s, s.pc.idx);
    } else if !s.pc.RespClear? {
      CompleteIfKept(s.q, s.q.cur, true);
    }
  }

  lemma DetourKept(s: State, ok: bool, sent: bool, q': Queues)
    requires Inv(s) && Kept(s.q) && Detouring(s.pc) && q' == DetourStep(s, ok, sent).q
    ensures Kept(q')
  {
    if s.pc.Issue? && CanIssue(s) { FillKept(s.q, s.pc.cmd, false); }
  }

  lemma CheckKept(s: State, q': Queues)
    requires Inv(s) && Kept(s.q) && Checking(s.pc) && q' == CheckStep(s).q
    ensures Kept(q')
  {
    if s.pc == TimeoutCheck { CompleteIfKept(s.q, s.q.cur, s.link.cmdTimedOut); }
  }

  lemma PeekedKept(s: State, id: nat)
    requires Inv(s) && Kept(s.q) && s.pc == Peeked(id)
    ensures Kept(ConsiderCommand(s, id).q)
  {
    CompleteIfKept(s.q, Some(id), Consider(CmdOf(s.q, id), s.power.psstate) == Ignore);
  }

  lemma UnlinkStepKept(s: State, id: nat)
    requires Inv(s) && Kept(s.q) && s.pc == Unlink(id)
    ensures Kept(UnlinkStep(s, id).q)
  {
    UnlinkKept(s.q, id);
  }

  lemma SubmitKept(s: State, id: nat)
    requires Inv(s) && Kept(s.q) && s.pc == Submit1(id)
    ensures id in s.q.nodes && Kept(Submit(s, id, NextSeqnum(s.link.seqnum)).q)
  {
    MakeCurrentKept(s.q, id, NextSeqnum(s.link.seqnum));
  }

  lemma ChooseStepKept(s: State, q': Queues)
    requires Inv(s) && Kept(s.q) && Choosing(s.pc) && q' == ChooseStep(s).q
    ensures Kept(q')
  {
    if s.pc.Peeked? {
      PeekedKept(s, s.pc.id);
    } else if s.pc.Unlink? {
      UnlinkStepKept(s, s.pc.id);
    } else {
      SubmitKept(s, s.pc.id);
    }
  }

  lemma SendKept(s: State, ok: bool, sent: bool, q': Queues)
    requires Inv(s) && Kept(s.q) && Sending(s.pc) && q' == SendStep(s, ok, sent).q
    ensures Kept(q')
  {
    match s.pc
    case SubmitFail(id, cmd) => CompleteKept(s.q, id);
    case Submit3(id, cmd) => CompleteIfKept(s.q, Some(id), cmd == DeepSleep);
    case _ =>
  }

  lemma MainKept(s: State, ok: bool, sent: bool, q': Queues)
    requires Inv(s) && Kept(s.q) && q' == MainStep(s, ok, sent).q
    ensures Kept(q')
  {
    if Answering(s.pc) {
      AnswerKept(s, q');
    } else if Detouring(s.pc) {
      DetourKept(s, ok, sent, q');
    } else if Checking(s.pc) {
      CheckKept(s, q');
    } else if Choosing(s.pc) {
      ChooseStepKept(s, q');
    } else if Sending(s.pc) {
      SendKept(s, ok, sent, q');
    }
  }

  lemma CallerKept(s: State, a: Act, q': Queues)
    requires Inv(s) && Kept(s.q) && Allowed(s, a) && q' == Step(s, a).q
    requires a.Call? || a.Place? || a.Insert? || a.CleanUp?
    ensures Kept(q')
  {
    match a
    case Call(cmd, waited) => if CanIssue(s) { FillKept(s.q, cmd, waited); }
    case Place(id) => ChooseKept(s.q, id, s.power.psstate);
    case Insert(id) => InsertKept(s.q, id);
    case CleanUp(id) => ReturnKept(s.q, id);
  }

  lemma StepKept(s: State, a: Act, q': Queues)
    requires Inv(s) && Kept(s.q) && Allowed(s, a) && q' == Step(s, a).q
    ensures Kept(q')
  {
    if a.Main? {
      MainKept(s, a.ok, a.sent, q');
    } else if a.Call? || a.Place? || a.Insert? || a.CleanUp? {
      CallerKept(s, a, q');
    }
  }

  lemma InitKept()
    ensures Kept(Init().q)
  {
    assert Line(Init().q) == [];
  }

  lemma {:induction false} RunKept(s: State, acts: seq<Act>)
    requires Inv(s) && Kept(s.q) && Possible(s, acts)
    ensures Kept(Run(s, acts).q)
    decreases |acts|
  {
    if acts != [] {
      StepKept(s, acts[0], Step(s, acts[0]).q);
      StepKeepsInv(s, acts[0], Step(s, acts[0]));
      RunKept(Step(s, acts[0]), acts[1..]);
    }
  }

  lemma ReachedKept(s: State, acts: seq<Act>)
    requires Reached(s, acts)
    ensures Kept(s.q) && Inv(s)
  {
    InitInv();
    InitKept();
    RunKept(Init(), acts);
    ReachedInv(s, acts);
  }
}
