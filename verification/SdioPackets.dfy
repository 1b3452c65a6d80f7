/**
 The packets that wait for the SDIO worker: a linked list with a pointer to its first packet,
 appended to by a walk to its end.
 */
module SdioPackets {
  import opened Wrappers

  const MVMS_DAT: byte := 0
  const MVMS_CMD: byte := 1
  const PACKET_STRUCT: nat := 16  // sizeof(struct if_sdio_packet)

  const MAX_PAYLOAD: nat := 65536 - PACKET_STRUCT - 4

  datatype Outcome = Refused | NoMemory | Overrun | Queued

  datatype Dnld = ResReceived | DataSent | CmdSent

  function Marked(kind: byte, before: Dnld): Dnld {
    if kind == MVMS_CMD then CmdSent else if kind == MVMS_DAT then DataSent else before
  }

  /** The packet the card gets: a length that counts the header, the type, the payload, padding */
  function Packet(kind: byte, payload: seq<byte>, size: nat): (p: seq<byte>)
    requires |payload| + 4 <= size
    ensures |p| == size
  {
    var n := |payload| + 4;
    [n % 0x100, n / 0x100 % 0x100, kind, 0] + payload + seq(size - n, _ => 0)
  }

  /** The card's view of a packet */
  function Unpack(p: seq<byte>): Option<(byte, seq<byte>)> {
    if |p| < 4 then None
    else
      var lo: nat, hi: nat := p[0], p[1];
      var n := lo + 0x100 * hi;
      if n < 4 || n > |p| then None else Some((p[2], p[4..n]))
  }

  lemma UnpackPacket(kind: byte, payload: seq<byte>, size: nat)
    requires |payload| + 4 <= size && |payload| + 4 < 0x1_0000
    ensures Unpack(Packet(kind, payload, size)) == Some((kind, payload))
  {
    var p := Packet(kind, payload, size);
    assert p[0] == (|payload| + 4) % 0x100 && p[1] == (|payload| + 4) / 0x100 % 0x100;
    assert p[4..|payload| + 4] == payload;
  }

  class Node {
    const buffer: seq<byte>
    var next: Node?

    constructor (buffer: seq<byte>)
      ensures this.buffer == buffer && next == null
    {
      this.buffer := buffer;
      next := null;
    }
  }

  function NextOf(nodes: seq<Node>, i: nat): Node? {
    if i + 1 < |nodes| then nodes[i + 1] else null
  }

  class Card {
    var packets: Node?
    var dnldSent: Dnld
    ghost var nodes: seq<Node>

    ghost predicate Valid()
      reads this, nodes
    {
      && packets == (if nodes == [] then null else nodes[0])
      && (forall i, j :: 0 <= i < j < |nodes| ==> nodes[i] != nodes[j])
      && (forall i :: 0 <= i < |nodes| ==> nodes[i].next == NextOf(nodes, i))
    }

    /** The buffers of the waiting packets, first to last */
    ghost function Contents(): seq<seq<byte>>
      reads this, nodes
    {
      seq(|nodes|, i requires 0 <= i < |nodes| reads this, nodes => nodes[i].buffer)
    }

    constructor ()
      ensures Valid() && Contents() == [] && nodes == []
    {
      packets, dnldSent, nodes := null, ResReceived, [];
    }

    /** if_sdio.c:954-963 */
    method Append(node: Node)
      requires Valid() && node.next == null && node !in nodes
      modifies this`packets, this`nodes, nodes
      ensures Valid() && nodes == old(nodes) + [node]
    {
      if packets == null {
        packets := node;
      } else {
        var cur := packets;
        ghost var k := 0;
        while cur.next != null
          invariant 0 <= k < |nodes| && cur == nodes[k]
          decreases |nodes| - k
          modifies {}
        {
          assert nodes[k].next == NextOf(nodes, k);
          cur := cur.next;
          k := k + 1;
        }
        assert nodes[k].next == NextOf(nodes, k);
        cur.next := node;
      }
      nodes := nodes + [node];
    }

    method Enqueue(buffer: seq<byte>)
      requires Valid()
      modifies this`packets, this`nodes, nodes
      ensures Valid() && fresh(set n | n in nodes && n !in old(nodes))
      ensures Contents() == old(Contents()) + [buffer]
    {
      var node := new Node(buffer);
      Append(node);
    }

    /** `if_sdio_host_to_card` with a buffer of any length that fits its 16-bit parameter. `aligned`
        is what `sdio_align_size` makes of the payload and its header; the driver keeps its low 16
        bits only, and `Overrun` says that the buffer allocated for these is too short for the copy. */
    method HostToCard(kind: byte, payload: seq<byte>, aligned: nat, gotMemory: bool) returns (outcome: Outcome)
      requires Valid() && |payload| < 0x1_0000 && |payload| + 4 <= aligned
      modifies this, nodes
      ensures Valid() && fresh(set n | n in nodes && n !in old(nodes))
      ensures outcome == Refused <==> |payload| > MAX_PAYLOAD
      ensures aligned < |payload| + 4 + 0x1_0000 ==>
        (outcome == Overrun <==> |payload| <= MAX_PAYLOAD && gotMemory && aligned >= 0x1_0000)
      ensures outcome == Queued <==> Accepted(Send(kind, payload, aligned, gotMemory))
      ensures outcome == Queued ==> Contents() == old(Contents()) + [Packet(kind, payload, aligned % 0x1_0000)]
      ensures outcome == Queued ==> dnldSent == Marked(kind, old(dnldSent))
      ensures outcome != Queued ==> Contents() == old(Contents()) && dnldSent == old(dnldSent)
    {
      if |payload| > MAX_PAYLOAD { return Refused; }
      var size := aligned % 0x1_0000;
      if !gotMemory { return NoMemory; }
      if |payload| + 4 > size { return Overrun; }
      Enqueue(Packet(kind, payload, size));
      if kind == MVMS_CMD {
        dnldSent := CmdSent;
      } else if kind == MVMS_DAT {
        dnldSent := DataSent;
      }
      outcome := Queued;
    }

    /** The worker takes the first packet: if_sdio.c:409-413. */
    method Take() returns (buffer: Option<seq<byte>>)
      requires Valid()
      modifies this`packets, this`nodes
      ensures Valid() && nodes == (if old(nodes) == [] then [] else old(nodes)[1..])
      ensures old(Contents()) == [] ==> buffer == None && Contents() == []
      ensures old(Contents()) != [] ==> buffer == Some(old(Contents())[0]) && Contents() == old(Contents())[1..]
    {
      var packet := packets;
      if packet == null { return None; }
      assert nodes[0].next == NextOf(nodes, 0);
      packets := packet.next;
      nodes := nodes[1..];
      buffer := Some(packet.buffer);
    }

    /** `if_sdio_host_to_card_worker` undisturbed: it goes on until the list is empty. */
    method WriteAll() returns (taken: seq<seq<byte>>)
      requires Valid()
      modifies this`packets, this`nodes
      ensures Valid() && Contents() == [] && taken == old(Contents())
    {
      taken := [];
      ghost var all, k := nodes, 0;
      while packets != null
        invariant Valid() && k <= |all| && nodes == all[k..]
        invariant |taken| == k && forall i :: 0 <= i < k ==> taken[i] == all[i].buffer
        decreases |nodes|
      {
        assert Contents()[0] == all[k].buffer;
        var buffer := Take();
        taken := taken + [buffer.value];
        k := k + 1;
      }
    }
  }

  // ------------------------------------------------------------------ over whole runs

  /** What callers and the worker do to the list, one critical section each */
  datatype Op = Send(kind: byte, payload: seq<byte>, aligned: nat, gotMemory: bool) | TakeFirst

  predicate Accepted(op: Op) {
    op.Send? && |op.payload| <= MAX_PAYLOAD && op.gotMemory && |op.payload| + 4 <= op.aligned % 0x1_0000
  }

  predicate WellFormed(op: Op) {
    op.Send? ==> |op.payload| < 0x1_0000 && |op.payload| + 4 <= op.aligned
  }

  /** What a call adds to the list */
  function Added(op: Op): seq<seq<byte>> {
    if Accepted(op) then [Packet(op.kind, op.payload, op.aligned % 0x1_0000)] else []
  }

  /** How many packets wait after a call, of `n` before it */
  function After(n: nat, op: Op): nat {
    if Accepted(op) then n + 1 else if op == TakeFirst && n > 0 then n - 1 else n
  }

  /** The packets of the accepted payloads, in the order of the calls */
  function Packets(ops: seq<Op>): seq<seq<byte>> {
    if ops == [] then [] else Packets(ops[..|ops| - 1]) + Added(ops[|ops| - 1])
  }

  function Waiting(n: nat, ops: seq<Op>): nat {
    if ops == [] then n else After(Waiting(n, ops[..|ops| - 1]), ops[|ops| - 1])
  }

  method Perform(card: Card, op: Op) returns (taken: seq<seq<byte>>)
    requires card.Valid() && WellFormed(op)
    modifies card, card.nodes
    ensures card.Valid() && fresh(set n | n in card.nodes && n !in old(card.nodes))
    ensures taken + card.Contents() == old(card.Contents()) + Added(op)
    ensures |card.Contents()| == After(|old(card.Contents())|, op)
  {
    taken := [];
    if op == TakeFirst {
      var buffer := card.Take();
      if buffer.Some? { taken := [buffer.value]; }
    } else {
      var outcome := card.HostToCard(op.kind, op.payload, op.aligned, op.gotMemory);
    }
  }

  /** First in, first out, whatever callers and the worker do in whatever order: what was taken and
      what waits is what waited before and what was accepted, in order, and the worker takes a packet
      whenever one waits. */
  method Serve(card: Card, ops: seq<Op>) returns (taken: seq<seq<byte>>)
    requires card.Valid() && forall i :: 0 <= i < |ops| ==> WellFormed(ops[i])
    modifies card, card.nodes
    ensures card.Valid()
    ensures taken + card.Contents() == old(card.Contents()) + Packets(ops)
    ensures |card.Contents()| == Waiting(|old(card.Contents())|, ops)
  {
    taken := [];
    for k := 0 to |ops|
      invariant card.Valid() && fresh(set n | n in card.nodes && n !in old(card.nodes))
      invariant taken + card.Contents() == old(card.Contents()) + Packets(ops[..k])
      invariant |card.Contents()| == Waiting(|old(card.Contents())|, ops[..k])
    {
      ghost var before := card.Contents();
      var more := Perform(card, ops[k]);
      Extend(old(card.Contents()), taken, before, more, card.Contents(), ops, k);
      taken := taken + more;
    }
    assert ops[..|ops|] == ops;
  }

  lemma Extend(start: seq<seq<byte>>, taken: seq<seq<byte>>, before: seq<seq<byte>>, more: seq<seq<byte>>,
               after: seq<seq<byte>>, ops: seq<Op>, k: nat)
    requires k < |ops| && taken + before == start + Packets(ops[..k]) && more + after == before + Added(ops[k])
    ensures taken + more + after == start + Packets(ops[..k + 1])
    ensures Waiting(|start|, ops[..k + 1]) == After(Waiting(|start|, ops[..k]), ops[k])
  {
    assert ops[..k + 1][..k] == ops[..k];
    Regroup(taken, more, after);
    Regroup(taken, before, Added(ops[k]));
    Regroup(start, Packets(ops[..k]), Added(ops[k]));
  }

  lemma Regroup(a: seq<seq<byte>>, b: seq<seq<byte>>, c: seq<seq<byte>>)
    ensures a + b + c == a + (b + c)
  {}
}
