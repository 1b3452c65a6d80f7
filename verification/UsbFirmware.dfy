/**
 Firmware download over USB: the stop-and-wait transfer of an image that the checker accepted,
 against a device that may report a CRC error for any block any number of times.
 */
module UsbFirmware {
  import opened Wrappers
  import opened UsbChecker

  // ----------------------------------------------------------------- the transfer

  datatype Packet = Packet(header: seq<byte>, sn: nat, data: seq<byte>)

  datatype Card = Card(
    totalbytes: nat, fwlastblksent: nat, fwseqnum: nat,
    crcOk: bool, fwfinalblk: bool, fwdnldover: bool,
    sent: seq<Packet>)

  /** if_usb.c:878-884 */
  const FRESH := Card(0, 0, WRAP - 1, true, false, false, [])

  function PacketAt(mem: Memory, at: nat, sn: nat): Packet {
    Packet(Slice(mem, at, HEADER), sn, Slice(mem, Add32(at, HEADER), DataLength(mem, at)))
  }

  /** `if_usb_send_fw_pkt` */
  function Send(mem: Memory, c: Card): Card {
    var at := if c.crcOk then c.totalbytes else c.fwlastblksent;
    var sn := if c.crcOk then Add32(c.fwseqnum, 1) else c.fwseqnum;
    c.(totalbytes := Add32(Add32(at, HEADER), DataLength(mem, at)),
       fwlastblksent := at,
       fwseqnum := sn,
       fwfinalblk := c.fwfinalblk || Kind(mem, at) == FW_HAS_LAST_BLOCK,
       sent := c.sent + [PacketAt(mem, at, sn)])
  }

  /** `if_usb_receive_fwload` after the boot response: the card reports on the last packet. */
  function Reply(mem: Memory, c: Card, ok: bool): Card {
    if c.fwdnldover then c
    else if c.fwfinalblk then c.(crcOk := ok, fwdnldover := true)
    else Send(mem, c.(crcOk := ok))
  }

  function Download(mem: Memory, replies: seq<bool>): Card {
    if replies == [] then Send(mem, FRESH)
    else Reply(mem, Download(mem, replies[..|replies| - 1]), replies[|replies| - 1])
  }

  lemma BackAndForth(n: nat)
    requires n < WRAP
    ensures Add32(Add32(n, WRAP - 1), 1) == n
  {}

  class UsbCard {
    var totalbytes: nat
    var fwlastblksent: nat
    var fwseqnum: nat
    var crcOk: bool
    var fwfinalblk: bool
    var fwdnldover: bool
    ghost var sent: seq<Packet>

    ghost function View(): Card
      reads this
    {
      Card(totalbytes, fwlastblksent, fwseqnum, crcOk, fwfinalblk, fwdnldover, sent)
    }

    /** if_usb.c:878-884 */
    method Reset()
      modifies this
      ensures View() == FRESH
    {
      totalbytes, fwlastblksent, fwseqnum := 0, 0, WRAP - 1;
      crcOk, fwfinalblk, fwdnldover := true, false, false;
      sent := [];
    }

    /** if_usb.c:331-334: after a CRC failure, back up to the last block. */
    method BackUp()
      requires fwseqnum < WRAP
      modifies `totalbytes, `fwseqnum
      ensures totalbytes == if crcOk then old(totalbytes) else fwlastblksent
      ensures Add32(fwseqnum, 1) == if crcOk then Add32(old(fwseqnum), 1) else old(fwseqnum)
    {
      if !crcOk {
        totalbytes := fwlastblksent;
        fwseqnum := Add32(fwseqnum, WRAP - 1);
        BackAndForth(old(fwseqnum));
      }
    }

    /** `if_usb_send_fw_pkt` */
    method SendFwPkt(mem: Memory) returns (packet: Packet)
      requires fwseqnum < WRAP
      modifies this
      ensures View() == Send(mem, old(View()))
      ensures sent == old(sent) + [packet]
    {
      BackUp();
      var header := Slice(mem, totalbytes, HEADER);
      var kind, length := Kind(mem, totalbytes), DataLength(mem, totalbytes);
      fwlastblksent := totalbytes;
      totalbytes := Add32(totalbytes, HEADER);
      var data := Slice(mem, totalbytes, length);
      fwseqnum := Add32(fwseqnum, 1);
      totalbytes := Add32(totalbytes, length);
      packet := Packet(header, fwseqnum, data);
      sent := sent + [packet];
      if kind == FW_HAS_LAST_BLOCK { fwfinalblk := true; }
    }

    /** `if_usb_receive_fwload` after the boot response */
    method ReceiveFwload(mem: Memory, cmd: nat)
      requires fwseqnum < WRAP
      modifies this
      ensures View() == Reply(mem, old(View()), cmd == 0)
    {
      if fwdnldover { return; }
      crcOk := cmd == 0;
      if fwfinalblk {
        fwdnldover := true;
        return;
      }
      var _ := SendFwPkt(mem);
    }
  }

  /** A reply whose command field is zero reports a correct CRC. */
  function Oks(replies: seq<nat>): seq<bool> { seq(|replies|, i requires 0 <= i < |replies| => replies[i] == 0) }

  // ------------------------------------------------------------------ what is sent

  function Init<T>(s: seq<T>): seq<T>
    requires s != []
  {
    s[..|s| - 1]
  }

  function Last<T>(s: seq<T>): T
    requires s != []
  {
    s[|s| - 1]
  }

  /** The k-th block of the image as the card should get it, numbered k */
  function Block(mem: Memory, k: nat): Packet {
    var at := Boundary(mem, k);
    Packet(Slice(mem, at, HEADER), k, Slice(mem, at + HEADER, DataLength(mem, at)))
  }

  /** The block that is with the card after these replies, the n-th being the last of the image */
  function Index(replies: seq<bool>, n: nat): (k: nat)
    ensures k <= n
  {
    if replies == [] then 0
    else
      var k := Index(Init(replies), n);
      if Last(replies) && k < n then k + 1 else k
  }

  /** The last block has been answered, whatever the answer was. */
  predicate Over(replies: seq<bool>, n: nat) {
    replies != [] && Index(Init(replies), n) == n
  }

  /** Which block each packet carries */
  function Trace(replies: seq<bool>, n: nat): seq<nat> {
    if replies == [] then [0]
    else if Over(replies, n) then Trace(Init(replies), n)
    else Trace(Init(replies), n) + [Index(replies, n)]
  }

  predicate Carries(mem: Memory, sent: seq<Packet>, trace: seq<nat>) {
    |sent| == |trace| && forall i :: 0 <= i < |sent| ==> sent[i] == Block(mem, trace[i])
  }

  /** The card structure between two replies */
  predicate AtBlock(mem: Memory, c: Card, k: nat, n: nat) {
    && c.fwlastblksent == Boundary(mem, k) && c.fwseqnum == k && c.fwfinalblk == (k == n)
    && (k < n ==> c.totalbytes == Boundary(mem, k + 1))
  }

  /** The sender's 32-bit sums are exact at the k-th block, and only the n-th is a last one. */
  predicate BlockOk(mem: Memory, n: nat, k: nat) {
    var at := Boundary(mem, k);
    && Add32(at, HEADER) == at + HEADER
    && Add32(at + HEADER, DataLength(mem, at)) == Boundary(mem, k + 1)
    && (Kind(mem, at) == FW_HAS_LAST_BLOCK <==> k == n)
    && Add32(k, 1) == k + 1
  }

  /** So it is for the blocks up to the m-th. */
  predicate WellCut(mem: Memory, n: nat, m: nat) {
    BlockOk(mem, n, m) && (m > 0 ==> WellCut(mem, n, m - 1))
  }

  lemma {:induction false} WellCutAt(mem: Memory, n: nat, m: nat, k: nat)
    requires WellCut(mem, n, m) && k <= m
    ensures BlockOk(mem, n, k)
  {
    if k < m { WellCutAt(mem, n, m - 1, k); }
  }

  lemma ReachedBlockOk(mem: Memory, totlen: nat, n: nat, k: nat)
    requires totlen < WRAP && ImageFits(mem, totlen, n) && k <= n
    ensures BlockOk(mem, n, k)
  {
    assert Reaches(mem, totlen, k);
    BoundaryGrows(mem, k + 1, n + 1);
    BoundaryGrows(mem, 0, k);
    if k < n { assert Kind(mem, Boundary(mem, k)) == FW_HAS_DATA_TO_RECV; }
  }

  /** An image that the checker accepts can be sent: every block the sender visits is one the
      checker walked, and its sums do not wrap. */
  lemma {:induction false} CheckedImageIsWellCut(mem: Memory, totlen: nat, n: nat, m: nat)
    requires totlen < WRAP && ImageFits(mem, totlen, n) && m <= n
    ensures WellCut(mem, n, m)
  {
    ReachedBlockOk(mem, totlen, n, m);
    if m > 0 { CheckedImageIsWellCut(mem, totlen, n, m - 1); }
  }

  lemma SendBlock(mem: Memory, n: nat, c: Card, k: nat)
    requires WellCut(mem, n, n) && k <= n
    requires (if c.crcOk then c.totalbytes else c.fwlastblksent) == Boundary(mem, k)
    requires (if c.crcOk then Add32(c.fwseqnum, 1) else c.fwseqnum) == k && !c.fwfinalblk
    ensures AtBlock(mem, Send(mem, c), k, n) && Send(mem, c).sent == c.sent + [Block(mem, k)]
  {
    WellCutAt(mem, n, n, k);
    var at := Boundary(mem, k);
    assert PacketAt(mem, at, k) == Block(mem, k);
  }

  lemma CarriesMore(mem: Memory, sent: seq<Packet>, trace: seq<nat>, k: nat)
    requires Carries(mem, sent, trace)
    ensures Carries(mem, sent + [Block(mem, k)], trace + [k])
  {}

  lemma AnswerMovesOn(mem: Memory, n: nat, c: Card, k: nat, ok: bool)
    requires WellCut(mem, n, n) && k < n
    requires AtBlock(mem, c, k, n) && !c.fwdnldover
    ensures
      var k' := if ok then k + 1 else k;
      AtBlock(mem, Reply(mem, c, ok), k', n) && Reply(mem, c, ok).sent == c.sent + [Block(mem, k')] &&
      !Reply(mem, c, ok).fwdnldover
  {
    WellCutAt(mem, n, n, k);
    SendBlock(mem, n, c.(crcOk := ok), if ok then k + 1 else k);
  }

  /** The state of the download after any replies of the card */
  lemma {:induction false} DownloadFollowsReplies(mem: Memory, n: nat, replies: seq<bool>)
    requires WellCut(mem, n, n)
    ensures AtBlock(mem, Download(mem, replies), Index(replies, n), n)
    ensures Download(mem, replies).fwdnldover == Over(replies, n)
    ensures Carries(mem, Download(mem, replies).sent, Trace(replies, n))
    decreases |replies|
  {
    if replies == [] {
      SendBlock(mem, n, FRESH, 0);
    } else {
      DownloadFollowsReplies(mem, n, Init(replies));
      OverMeansLast(Init(replies), n);
      if Index(Init(replies), n) < n {
        AnswerMovesOn(mem, n, Download(mem, Init(replies)), Index(Init(replies), n), Last(replies));
        CarriesMore(mem, Download(mem, Init(replies)).sent, Trace(Init(replies), n), Index(replies, n));
      }
    }
  }

  lemma OverMeansLast(replies: seq<bool>, n: nat)
    ensures Over(replies, n) ==> Index(replies, n) == n
  {}

  // ---------------------------------------------------------------- what the card gets

  lemma {:induction false} TraceEnds(replies: seq<bool>, n: nat)
    ensures Trace(replies, n) != [] && Last(Trace(replies, n)) == Index(replies, n)
    decreases |replies|
  {
    if replies != [] {
      TraceEnds(Init(replies), n);
      OverMeansLast(replies, n);
    }
  }

  /** The i-th reply is about the i-th packet; these are the packets reported as good. */
  function Acknowledged(sent: seq<Packet>, replies: seq<bool>): seq<Packet> {
    if replies == [] then []
    else
      Acknowledged(sent, Init(replies)) +
      if Last(replies) && |replies| <= |sent| then [sent[|replies| - 1]] else []
  }

  function Blocks(mem: Memory, k: nat): seq<Packet> {
    if k == 0 then [] else Blocks(mem, k - 1) + [Block(mem, k - 1)]
  }

  function Contents(packets: seq<Packet>): seq<byte> {
    if packets == [] then [] else Contents(Init(packets)) + Last(packets).header + Last(packets).data
  }

  lemma JoinBlock(mem: Memory, at: nat, len: nat)
    ensures Slice(mem, 0, at) + Slice(mem, at, HEADER) + Slice(mem, at + HEADER, len) ==
      Slice(mem, 0, at + HEADER + len)
  {}

  /** The blocks are the image, cut at the boundaries the checker walked. */
  lemma {:induction false} BlocksAreTheImage(mem: Memory, k: nat)
    ensures Contents(Blocks(mem, k)) == Slice(mem, 0, Boundary(mem, k))
  {
    if k > 0 {
      BlocksAreTheImage(mem, k - 1);
      var at, len := Boundary(mem, k - 1), DataLength(mem, Boundary(mem, k - 1));
      assert Init(Blocks(mem, k)) == Blocks(mem, k - 1);
      JoinBlock(mem, at, len);
      assert Last(Blocks(mem, k)) == Block(mem, k - 1);
      assert Boundary(mem, k) == at + HEADER + len;
      assert Contents(Blocks(mem, k)) == Slice(mem, 0, at) + Slice(mem, at, HEADER) + Slice(mem, at + HEADER, len);
    }
  }

  lemma {:induction false} AcknowledgedEarlier(sent: seq<Packet>, p: Packet, replies: seq<bool>)
    requires |replies| <= |sent|
    ensures Acknowledged(sent + [p], replies) == Acknowledged(sent, replies)
    decreases |replies|
  {
    if replies != [] { AcknowledgedEarlier(sent, p, Init(replies)); }
  }

  lemma AcknowledgedStep(sent: seq<Packet>, p: Packet, replies: seq<bool>)
    requires replies != [] && |replies| == |sent|
    ensures Acknowledged(sent + [p], replies) ==
            Acknowledged(sent, Init(replies)) + (if Last(replies) then [Last(sent)] else [])
  {
    AcknowledgedEarlier(sent, p, Init(replies));
    assert (sent + [p])[|replies| - 1] == Last(sent);
  }

  lemma {:induction false} OnePacketAhead(replies: seq<bool>, n: nat)
    requires !Over(replies, n)
    ensures |Trace(replies, n)| == |replies| + 1
    decreases |replies|
  {
    if replies != [] {
      OverMeansLast(Init(replies), n);
      OnePacketAhead(Init(replies), n);
    }
  }

  lemma SentGrows(mem: Memory, n: nat, replies: seq<bool>)
    requires WellCut(mem, n, n) && replies != [] && !Over(replies, n)
    ensures
      var before, after := Download(mem, Init(replies)).sent, Download(mem, replies).sent;
      |before| == |replies| && after == before + [Last(after)] &&
      Last(before) == Block(mem, Index(Init(replies), n)) && Last(after) == Block(mem, Index(replies, n))
  {
    OverMeansLast(Init(replies), n);
    DownloadFollowsReplies(mem, n, Init(replies));
    DownloadFollowsReplies(mem, n, replies);
    OnePacketAhead(Init(replies), n);
    OnePacketAhead(replies, n);
    TraceEnds(Init(replies), n);
    TraceEnds(replies, n);
    ReplySends(mem, Download(mem, Init(replies)), Last(replies));
  }

  lemma ReplySends(mem: Memory, c: Card, ok: bool)
    requires !c.fwdnldover && !c.fwfinalblk
    ensures Reply(mem, c, ok).sent == c.sent + [Last(Reply(mem, c, ok).sent)]
  {}

  /** A resend repeats the packet it replaces; after an OK the next block follows. */
  lemma ResendIsIdentical(mem: Memory, n: nat, replies: seq<bool>)
    requires WellCut(mem, n, n) && replies != [] && !Over(replies, n)
    ensures
      var before, after := Download(mem, Init(replies)).sent, Download(mem, replies).sent;
      before != [] && after == before + [Last(after)] && Last(after) == Block(mem, Last(after).sn) &&
      (Last(replies) ==> Last(after).sn == Last(before).sn + 1) &&
      (!Last(replies) ==> Last(after) == Last(before))
  {
    SentGrows(mem, n, replies);
    IndexMoves(replies, n);
    BlockNumber(mem, Index(Init(replies), n));
    BlockNumber(mem, Index(replies, n));
  }

  lemma BlockNumber(mem: Memory, k: nat)
    ensures Block(mem, k).sn == k
  {}

  lemma IndexMoves(replies: seq<bool>, n: nat)
    requires replies != [] && !Over(replies, n)
    ensures Index(replies, n) == if Last(replies) then Index(Init(replies), n) + 1 else Index(Init(replies), n)
  {}

  lemma BlocksMore(mem: Memory, k: nat)
    ensures Blocks(mem, k + 1) == Blocks(mem, k) + [Block(mem, k)]
  {}

  lemma AcknowledgedMore(mem: Memory, before: seq<Packet>, after: seq<Packet>, replies: seq<bool>, k: nat, j: nat)
    requires replies != [] && |before| == |replies| && after != [] && after == before + [Last(after)]
    requires Last(before) == Block(mem, k) && Acknowledged(before, Init(replies)) == Blocks(mem, k)
    requires j == if Last(replies) then k + 1 else k
    ensures Acknowledged(after, replies) == Blocks(mem, j)
  {
    AcknowledgedStep(before, Last(after), replies);
    if Last(replies) {
      BlocksMore(mem, k);
    } else {
      assert Acknowledged(after, replies) == Blocks(mem, k) + [];
    }
  }

  /** While the last block is unanswered, the blocks acknowledged as good are the first blocks of
      the image, in order, each once, whatever errors came in between. */
  lemma {:induction false} AcknowledgedIsPrefix(mem: Memory, n: nat, replies: seq<bool>)
    requires WellCut(mem, n, n) && !Over(replies, n)
    ensures Acknowledged(Download(mem, replies).sent, replies) == Blocks(mem, Index(replies, n))
    decreases |replies|
  {
    if replies != [] {
      OverMeansLast(Init(replies), n);
      AcknowledgedIsPrefix(mem, n, Init(replies));
      SentGrows(mem, n, replies);
      IndexMoves(replies, n);
      AcknowledgedMore(mem, Download(mem, Init(replies)).sent, Download(mem, replies).sent, replies,
                       Index(Init(replies), n), Index(replies, n));
    }
  }

  /** Any reply to the last block ends the download. By then the card has acknowledged every data
      block and been sent the last one: together, all bytes of the image up to its end. */
  lemma DownloadEnds(mem: Memory, n: nat, replies: seq<bool>)
    requires WellCut(mem, n, n) && replies != [] && !Over(Init(replies), n)
    ensures
      var c, c' := Download(mem, Init(replies)), Download(mem, replies);
      c'.fwdnldover == (Index(Init(replies), n) == n) &&
      (c'.fwdnldover ==> c'.sent == c.sent != []) &&
      (c'.fwdnldover ==>
        Contents(Acknowledged(c.sent, Init(replies)) + [Last(c.sent)]) == Slice(mem, 0, Boundary(mem, n + 1)))
  {
    DownloadFollowsReplies(mem, n, Init(replies));
    DownloadFollowsReplies(mem, n, replies);
    if Index(Init(replies), n) == n {
      AcknowledgedIsPrefix(mem, n, Init(replies));
      TraceEnds(Init(replies), n);
      BlocksAreTheImage(mem, n + 1);
    }
  }

  // ------------------------------------------------------------------ from end to end

  /** What a download has achieved: while it goes on, the card has acknowledged the first blocks of
      the image; once it is over, the data blocks acknowledged before the last block was answered
      are, with the last block, all bytes of the image. */
  ghost predicate Delivered(mem: Memory, n: nat, c: Card, replies: seq<bool>) {
    && c.fwdnldover == Over(replies, n)
    && (!Over(replies, n) ==> Acknowledged(c.sent, replies) == Blocks(mem, Index(replies, n)))
    && (Over(replies, n) ==> exists m: nat :: m < |replies| && WholeImage(mem, n, c.sent, replies[..m]))
  }

  predicate WholeImage(mem: Memory, n: nat, sent: seq<Packet>, replies: seq<bool>) {
    && Index(replies, n) == n && sent != []
    && Contents(Acknowledged(sent, replies) + [Last(sent)]) == Slice(mem, 0, Boundary(mem, n + 1))
  }

  lemma {:induction false} DownloadDelivers(mem: Memory, n: nat, replies: seq<bool>)
    requires WellCut(mem, n, n)
    ensures Delivered(mem, n, Download(mem, replies), replies)
    decreases |replies|
  {
    DownloadFollowsReplies(mem, n, replies);
    if !Over(replies, n) {
      AcknowledgedIsPrefix(mem, n, replies);
    } else if !Over(Init(replies), n) {
      DownloadEnds(mem, n, replies);
      assert replies[..|replies| - 1] == Init(replies);
    } else {
      DownloadDelivers(mem, n, Init(replies));
      DownloadFollowsReplies(mem, n, Init(replies));
      var m: nat :| m < |replies| - 1 && WholeImage(mem, n, Download(mem, Init(replies)).sent, Init(replies)[..m]);
      assert Init(replies)[..m] == replies[..m];
    }
  }

  lemma FittingImagePasses(mem: Memory, totlen: nat, n: nat)
    requires totlen < WRAP && ImageFits(mem, totlen, n)
    ensures NoWrap(mem, totlen) && SomeImage(mem, totlen) && WellCut(mem, n, n)
  {
    forall k: nat | Reaches(mem, totlen, k) && Kind(mem, Boundary(mem, k)) == FW_HAS_DATA_TO_RECV
      ensures Boundary(mem, k + 1) < WRAP
    {
      if k <= n { BoundaryGrows(mem, k + 1, n + 1); }
    }
    CheckedImageIsWellCut(mem, totlen, n, n);
  }

  /** `if_usb_prog_firmware` from the format check on, the card answering the boot command. */
  method ProgFirmware(card: UsbCard, mem: Memory, space: Space, totlen: nat, replies: seq<nat>) returns (ret: nat)
    requires totlen < WRAP && NeverReturns(mem, space, totlen)
    modifies card
    ensures NoWrap(mem, totlen) ==> ret == if SomeImage(mem, totlen) then 0 else 1
    ensures card.View() == if ret == 0 then Download(mem, Oks(replies)) else old(card.View())
    ensures forall n: nat :: ImageFits(mem, totlen, n) ==> ret == 0 && Delivered(mem, n, card.View(), Oks(replies))
  {
    ret := CheckFwfileFormat(mem, space, totlen);
    if ret == 0 {
      card.Reset();
      var _ := card.SendFwPkt(mem);
      for i := 0 to |replies|
        invariant card.View() == Download(mem, Oks(replies[..i])) && card.fwseqnum < WRAP
      {
        card.ReceiveFwload(mem, replies[i]);
        assert Oks(replies[..i + 1])[..i] == Oks(replies[..i]);
      }
      assert replies[..|replies|] == replies;
    }
    forall n: nat | ImageFits(mem, totlen, n)
      ensures ret == 0 && Delivered(mem, n, card.View(), Oks(replies))
    {
      FittingImagePasses(mem, totlen, n);
      DownloadDelivers(mem, n, Oks(replies));
    }
  }
}
