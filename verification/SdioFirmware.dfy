/**
 Firmware download over SDIO: the helper image in length-prefixed packets, and the real image in
 chunks of the sizes the card asks for. Both reuse one buffer, so that what pads a short chunk is
 left over from an earlier one.
 */
module SdioFirmware {
  import opened Wrappers

  function Min(a: nat, b: nat): nat { if a < b then a else b }

  /** `memcpy` into the chunk buffer */
  method Copy(buffer: array<byte>, at: nat, data: seq<byte>)
    requires at + |data| <= buffer.Length
    modifies buffer
    ensures buffer[..at] == old(buffer[..at]) && buffer[at..at + |data|] == data
  {
    for i := 0 to |data|
      invariant buffer[..at] == old(buffer[..at]) && buffer[at..at + i] == data[..i]
    {
      buffer[at + i] := data[i];
    }
  }

  // ------------------------------------------------------------------- the helper

  const PACKET: nat := 64
  const PAYLOAD: nat := 60

  function LittleEndian32(n: nat): (s: seq<byte>)
    ensures |s| == 4
  {
    [n % 0x100, n / 0x100 % 0x100, n / 0x1_0000 % 0x100, n / 0x100_0000 % 0x100]
  }

  /** The number in these octets, least significant first */
  function Number(s: seq<byte>): nat {
    if s == [] then 0 else s[0] + 0x100 * Number(s[1..])
  }

  function Length(p: seq<byte>): nat
    requires |p| >= 4
  {
    Number(p[..4])
  }

  /** The boot code of the card: collect the payloads up to the first empty block. */
  function Unpack(packets: seq<seq<byte>>): Option<seq<byte>> {
    if packets == [] || |packets[0]| != PACKET then None
    else
      var n := Length(packets[0]);
      if n == 0 then (if |packets| == 1 then Some([]) else None)
      else if n > PAYLOAD then None
      else
        var rest := Unpack(packets[1..]);
        if rest == None then None else Some(packets[0][4..4 + n] + rest.value)
  }

  /** A packet that carries this payload, whatever follows it */
  predicate Carries(p: seq<byte>, payload: seq<byte>) {
    |p| == PACKET && |payload| <= PAYLOAD && p[..4] == LittleEndian32(|payload|) && p[4..4 + |payload|] == payload
  }

  /** The packets carry the data in pieces that are not empty. */
  predicate Packed(packets: seq<seq<byte>>, data: seq<byte>)
    decreases |packets|
  {
    if packets == [] then data == []
    else
      var last := packets[|packets| - 1];
      |last| == PACKET && 0 < Length(last) <= |data| &&
      var at := |data| - Length(last);
      Carries(last, data[at..]) && Packed(packets[..|packets| - 1], data[..at])
  }

  lemma NumberOf(b0: byte, b1: byte, b2: byte, b3: byte)
    ensures Number([b0, b1, b2, b3]) == b0 + 0x100 * (b1 + 0x100 * (b2 + 0x100 * b3))
  {
    assert [b0, b1, b2, b3][1..] == [b1, b2, b3] && [b1, b2, b3][1..] == [b2, b3] && [b2, b3][1..] == [b3];
    assert Number([b3]) == b3 + 0x100 * Number([]);
    assert Number([b2, b3]) == b2 + 0x100 * Number([b3]);
    assert Number([b1, b2, b3]) == b1 + 0x100 * Number([b2, b3]);
  }

  lemma LengthOf(p: seq<byte>, payload: seq<byte>)
    requires Carries(p, payload)
    ensures Length(p) == |payload|
  {
    var n := |payload|;
    NumberOf(n % 0x100, n / 0x100 % 0x100, n / 0x1_0000 % 0x100, n / 0x100_0000 % 0x100);
  }

  /** Unpacking what was packed, followed by packets that unpack to `tail` */
  lemma {:induction false} UnpackPacked(packets: seq<seq<byte>>, data: seq<byte>, rest: seq<seq<byte>>, tail: seq<byte>)
    requires Packed(packets, data) && Unpack(rest) == Some(tail)
    ensures Unpack(packets + rest) == Some(data + tail)
    decreases |packets|
  {
    if packets == [] {
      assert packets + rest == rest && data + tail == tail;
    } else {
      var front, last := packets[..|packets| - 1], packets[|packets| - 1];
      var n := Length(last);
      var piece := data[|data| - n..];
      assert ([last] + rest)[1..] == rest;
      UnpackPacked(front, data[..|data| - n], [last] + rest, piece + tail);
      assert front + ([last] + rest) == packets + rest;
      assert data[..|data| - n] + (piece + tail) == data + tail;
    }
  }

  /** The first n transfers succeed. */
  predicate AllWork(works: nat -> bool, n: nat) { n > 0 ==> works(n - 1) && AllWork(works, n - 1) }

  predicate OfSize(packets: seq<seq<byte>>) { forall k :: 0 <= k < |packets| ==> |packets[k]| == PACKET }

  /** The chunks of the helper, one packet each, up to the first transfer that fails. */
  method SendChunks(buffer: array<byte>, fw: seq<byte>, works: nat -> bool)
    returns (ok: bool, packets: seq<seq<byte>>)
    requires buffer.Length == PACKET
    modifies buffer
    ensures ok ==> Packed(packets, fw)
    ensures ok == AllWork(works, |packets|) && OfSize(packets)
  {
    var sent := 0;
    packets, ok := [], true;
    while sent < |fw|
      invariant sent <= |fw| && Packed(packets, fw[..sent])
      invariant AllWork(works, |packets|) && OfSize(packets)
    {
      var chunkSize := Min(|fw| - sent, PAYLOAD);
      var packet := SendPacket(buffer, fw[sent..sent + chunkSize]);
      PackedMore(packets, packet, fw, sent, chunkSize);
      packets := packets + [packet];
      ok := works(|packets| - 1);
      if !ok { return; }
      sent := sent + chunkSize;
    }
    assert fw[..sent] == fw;
    ok := true;
  }

  /** `if_sdio_prog_helper` up to waiting for the helper to boot. `works(k)` is the outcome of the
      k-th transfer. */
  method ProgHelper(fw: seq<byte>, works: nat -> bool) returns (ok: bool, packets: seq<seq<byte>>)
    ensures ok ==> Unpack(packets) == Some(fw)
    ensures ok == AllWork(works, |packets|) && OfSize(packets)
  {
    var buffer := new byte[PACKET](_ => 0);
    ok, packets := SendChunks(buffer, fw, works);
    if !ok { return; }
    var packet := EndPacket(buffer);
    EndUnpacks(packets, fw, packet);
    packets := packets + [packet];
    ok := works(|packets| - 1);
  }

  lemma EndUnpacks(packets: seq<seq<byte>>, fw: seq<byte>, packet: seq<byte>)
    requires Packed(packets, fw) && Unpack([packet]) == Some([])
    ensures Unpack(packets + [packet]) == Some(fw)
  {
    UnpackPacked(packets, fw, [packet], []);
    assert fw + [] == fw;
  }

  lemma LengthOfEmpty(p: seq<byte>)
    requires |p| == PACKET && p[0..0 + 4] == [0, 0, 0, 0]
    ensures Unpack([p]) == Some([])
  {
    assert p[..4] == [0, 0, 0, 0];
    NumberOf(0, 0, 0, 0);
  }

  lemma PackedMore(packets: seq<seq<byte>>, packet: seq<byte>, fw: seq<byte>, sent: nat, n: nat)
    requires 0 < n && sent + n <= |fw| && Packed(packets, fw[..sent]) && Carries(packet, fw[sent..sent + n])
    ensures Packed(packets + [packet], fw[..sent + n])
  {
    var data, all := fw[..sent + n], packets + [packet];
    LengthOf(packet, fw[sent..sent + n]);
    assert data[|data| - n..] == fw[sent..sent + n] && data[..|data| - n] == fw[..sent];
    assert all[..|all| - 1] == packets;
  }

  /** One packet is made up in the buffer and sent. */
  method SendPacket(buffer: array<byte>, data: seq<byte>) returns (packet: seq<byte>)
    requires buffer.Length == PACKET && |data| <= PAYLOAD
    modifies buffer
    ensures Carries(packet, data)
  {
    Copy(buffer, 0, LittleEndian32(|data|));
    assert buffer[..4] == LittleEndian32(|data|);
    Copy(buffer, 4, data);
    packet := buffer[..];
  }

  /** An empty block marks the end of the transfer. */
  method EndPacket(buffer: array<byte>) returns (packet: seq<byte>)
    requires buffer.Length == PACKET
    modifies buffer
    ensures |packet| == PACKET && Unpack([packet]) == Some([])
  {
    Copy(buffer, 0, [0, 0, 0, 0]);
    packet := buffer[..];
    LengthOfEmpty(packet);
  }

  // --------------------------------------------------------------- the real firmware

  const CHUNK: nat := 512
  const BLOCK: nat := 32

  function RoundUp(n: nat): nat { (n + (BLOCK - 1)) / BLOCK * BLOCK }

  /** What happens on the bus: the card's size register is read and acted on, or bytes are written. */
  datatype Event = Ask(size: nat) | Write(bytes: seq<byte>)

  /** The card: how much it still wants of what it asked for, and what it got */
  datatype Card = Card(want: nat, got: seq<byte>)

  /** The card takes from each write as much as it wants, at most a chunk; the rest is padding. */
  function React(c: Card, e: Event): Card {
    match e
    case Ask(n) => Card(n, c.got)
    case Write(b) =>
      var n := Min(Min(c.want, CHUNK), |b|);
      Card(c.want - n, c.got + b[..n])
  }

  function Receive(trace: seq<Event>): Card {
    if trace == [] then Card(0, []) else React(Receive(trace[..|trace| - 1]), trace[|trace| - 1])
  }

  /** The bus takes writes of whole blocks, the card at most a chunk at a time; a request is even,
      and the first is not one of the values the boot code leaves in the register. */
  predicate EventOk(e: Event, first: bool) {
    match e
    case Ask(n) => n > 0 && n % 2 == 0 && (first ==> n > 2)
    case Write(b) => 0 < |b| <= CHUNK && |b| % BLOCK == 0
  }

  predicate TraceOk(trace: seq<Event>) { forall i :: 0 <= i < |trace| ==> EventOk(trace[i], i == 0) }

  function Asked(trace: seq<Event>): nat {
    if trace == [] then 0
    else
      var e := trace[|trace| - 1];
      Asked(trace[..|trace| - 1]) + if e.Ask? then e.size else 0
  }

  lemma ReceiveSnoc(trace: seq<Event>, e: Event)
    ensures Receive(trace + [e]) == React(Receive(trace), e)
    ensures Asked(trace + [e]) == Asked(trace) + if e.Ask? then e.size else 0
  {
    assert (trace + [e])[..|trace|] == trace;
  }

  /** After `sent` bytes the card has exactly these; only a last request for more than the image had
      left makes it take part of the last block's padding. */
  predicate Delivered(trace: seq<Event>, fw: seq<byte>, sent: nat, extra: nat)
    requires sent <= |fw|
  {
    var got := Receive(trace).got;
    if extra == 0 then got == fw[..sent]
    else sent == |fw| && |fw| <= |got| < |fw| + BLOCK && got[..|fw|] == fw
  }

  lemma RoundUpBounds(n: nat)
    requires 0 < n <= CHUNK
    ensures n <= RoundUp(n) <= CHUNK && RoundUp(n) % BLOCK == 0 && RoundUp(n) < n + BLOCK
  {}

  /** A chunk within the request is taken whole, and nothing of its padding. */
  lemma ChunkTaken(trace: seq<Event>, fw: seq<byte>, at: nat, n: nat, want: nat, bytes: seq<byte>)
    requires at + n <= |fw| && Receive(trace) == Card(want, fw[..at])
    requires n <= |bytes| && bytes[..n] == fw[at..at + n] && n == Min(want, CHUNK)
    ensures Receive(trace + [Write(bytes)]) == Card(want - n, fw[..at + n])
  {
    ReceiveSnoc(trace, Write(bytes));
    assert fw[..at] + fw[at..at + n] == fw[..at + n];
  }

  /** The last chunk of the image, of which the card wants more */
  lemma LastChunkTaken(trace: seq<Event>, fw: seq<byte>, at: nat, n: nat, want: nat, bytes: seq<byte>)
    requires at + n == |fw| && Receive(trace) == Card(want, fw[..at]) && 0 < n <= CHUNK && want > n
    requires |bytes| == RoundUp(n) && bytes[..n] == fw[at..]
    ensures Delivered(trace + [Write(bytes)], fw, |fw|, want - n)
  {
    ReceiveSnoc(trace, Write(bytes));
    RoundUpBounds(n);
    var m := Min(Min(want, CHUNK), |bytes|);
    assert n <= m;
    assert bytes[..m][..n] == fw[at..];
    assert (fw[..at] + bytes[..m])[..|fw|] == fw[..at] + bytes[..m][..n] == fw;
  }

  /** One chunk is copied to the buffer and written, rounded up to whole blocks. */
  method FillBuffer(buffer: array<byte>, data: seq<byte>) returns (bytes: seq<byte>)
    requires buffer.Length == CHUNK && 0 < |data| <= CHUNK
    modifies buffer
    ensures |bytes| == RoundUp(|data|) && |data| <= |bytes| && bytes[..|data|] == data && EventOk(Write(bytes), false)
  {
    RoundUpBounds(|data|);
    Copy(buffer, 0, data);
    bytes := buffer[..RoundUp(|data|)];
    assert bytes[..|data|] == buffer[0..0 + |data|];
  }

  /** A chunk is sent: if_sdio.c:615-629. */
  method SendChunk(buffer: array<byte>, fw: seq<byte>, at: nat, n: nat, ghost want: nat, trace: seq<Event>)
    returns (trace': seq<Event>)
    requires buffer.Length == CHUNK && 0 < n && at + n <= |fw| && TraceOk(trace) && trace != []
    requires Receive(trace) == Card(want, fw[..at])
    requires n == Min(want, CHUNK) || (at + n == |fw| && n < Min(want, CHUNK))
    modifies buffer
    ensures TraceOk(trace') && Asked(trace') == Asked(trace)
    ensures |trace'| == |trace| + 1 && trace' == trace + [trace'[|trace|]] && trace'[|trace|].Write?
    ensures want == n || at + n < |fw| ==> Receive(trace') == Card(want - n, fw[..at + n])
    ensures want > n && at + n == |fw| ==> Delivered(trace', fw, at + n, want - n)
  {
    var bytes := FillBuffer(buffer, fw[at..at + n]);
    trace' := trace + [Write(bytes)];
    ReceiveSnoc(trace, Write(bytes));
    if n == Min(want, CHUNK) { ChunkTaken(trace, fw, at, n, want, bytes); }
    if want > n && at + n == |fw| { LastChunkTaken(trace, fw, at, n, want, bytes); }
  }

  /** Where the card is in the middle of a round */
  predicate InRound(trace: seq<Event>, fw: seq<byte>, at: nat, left: nat, extra: nat)
    requires at + left <= |fw|
  {
    && TraceOk(trace) && trace != [] && (extra > 0 ==> at + left == |fw|)
    && (if left > 0 || extra == 0 then Receive(trace) == Card(left + extra, fw[..at])
        else Delivered(trace, fw, at, extra))
  }

  /** The transfers of the writes among events from `from` on all succeed: works(k) is the outcome of
      the k-th event. */
  predicate WritesWork(trace: seq<Event>, from: nat, works: nat -> bool) {
    forall k :: from <= k < |trace| && trace[k].Write? ==> works(k)
  }

  /** The last event is a write whose transfer failed, the only one. */
  predicate LastWriteFailed(trace: seq<Event>, works: nat -> bool) {
    trace != [] && trace[|trace| - 1].Write? && !works(|trace| - 1) && WritesWork(trace[..|trace| - 1], 0, works)
  }

  /** The sizes the card was found to ask for */
  function Sizes(trace: seq<Event>): seq<nat> {
    if trace == [] then []
    else
      var e := trace[|trace| - 1];
      Sizes(trace[..|trace| - 1]) + if e.Ask? then [e.size] else []
  }

  lemma SizesSnoc(trace: seq<Event>, e: Event)
    ensures Sizes(trace + [e]) == Sizes(trace) + if e.Ask? then [e.size] else []
  {
    assert (trace + [e])[..|trace|] == trace;
  }

  /** The chunks of one request: if_sdio.c:612-630. `extra` is what the card asked for beyond the end
      of the image. */
  method SendRound(buffer: array<byte>, fw: seq<byte>, sent: nat, request: nat, ghost extra: nat,
                   trace0: seq<Event>, works: nat -> bool)
    returns (ok: bool, trace: seq<Event>)
    requires buffer.Length == CHUNK && 0 < request && sent + request <= |fw|
    requires InRound(trace0, fw, sent, request, extra) && WritesWork(trace0, 0, works)
    modifies buffer
    ensures TraceOk(trace) && Asked(trace) == Asked(trace0) && Sizes(trace) == Sizes(trace0)
    ensures ok ==> InRound(trace, fw, sent + request, 0, extra) && WritesWork(trace, 0, works)
    ensures ok || LastWriteFailed(trace, works)
  {
    var at: nat, reqSize: nat := sent, request;
    trace := trace0;
    while reqSize > 0
      invariant at + reqSize == sent + request && InRound(trace, fw, at, reqSize, extra)
      invariant Asked(trace) == Asked(trace0) && Sizes(trace) == Sizes(trace0) && WritesWork(trace, 0, works)
    {
      var chunkSize := Min(reqSize, CHUNK);
      ghost var before := trace;
      trace := SendChunk(buffer, fw, at, chunkSize, reqSize + extra, trace);
      SizesSnoc(before, trace[|before|]);
      if !works(|trace| - 1) {
        assert trace[..|trace| - 1] == before;
        return false, trace;
      }
      at := at + chunkSize;
      reqSize := reqSize - chunkSize;
    }
    ok := true;
  }

  datatype Result = Loaded | BusError | HelperTimedOut | GaveUp | HelperError

  /** The reading ends the wait. Before the first block, 0, 1 and 2 are what the boot code leaves there. */
  predicate Ends(reading: Option<nat>, first: bool) { reading == None || !first || reading.value > 2 }

  /** if_sdio.c:564-594: read the size register until the card asks for something. `register` holds the
      values it returns before the time is over, None being a failed access. */
  method AwaitRequest(register: seq<Option<nat>>, from: nat, first: bool) returns (ret: Result, asked: nat, i: nat)
    requires from <= |register|
    ensures from <= i <= |register|
    ensures forall k :: from <= k < i - 1 ==> !Ends(register[k], first)
    ensures ret == HelperTimedOut <==> i == |register| && (i > from ==> !Ends(register[i - 1], first))
    ensures i == from ==> ret == HelperTimedOut
    ensures ret == BusError <==> i > from && register[i - 1] == None
    ensures ret == GaveUp <==> i > from && !first && register[i - 1] == Some(0)
    ensures ret == HelperError <==>
      i > from && register[i - 1].Some? && register[i - 1].value % 2 == 1 && (first ==> register[i - 1].value > 2)
    ensures ret == Loaded <==> i > from && register[i - 1] == Some(asked) && EventOk(Ask(asked), first)
  {
    i := from;
    asked := 0;
    while true
      invariant from <= i <= |register|
      invariant forall k :: from <= k < i ==> !Ends(register[k], first)
      decreases |register| - i
    {
      if i == |register| { return HelperTimedOut, 0, i; }
      i := i + 1;
      if register[i - 1] == None { return BusError, 0, i; }
      asked := register[i - 1].value;
      if !first || asked > 2 { break; }
    }
    if asked == 0 { return GaveUp, asked, i; }
    if asked % 2 == 1 { return HelperError, asked, i; }
    ret := Loaded;
  }

  /** What the card asks for in these readings of its register: all of them, once a first one is above 2 */
  function Requests(register: seq<Option<nat>>): seq<nat> {
    if register == [] then []
    else
      var before, reading := Requests(register[..|register| - 1]), register[|register| - 1];
      if reading == None || (before == [] && reading.value <= 2) then before else before + [reading.value]
  }

  lemma RequestsSnoc(register: seq<Option<nat>>, n: nat)
    requires n < |register|
    ensures Requests(register[..n + 1]) ==
      var before := Requests(register[..n]);
      if register[n] == None || (before == [] && register[n].value <= 2) then before else before + [register[n].value]
  {
    assert register[..n + 1][..n] == register[..n];
  }

  /** Readings that do not end the wait ask for nothing. */
  lemma {:induction false} RequestsSkipped(register: seq<Option<nat>>, from: nat, i: nat, first: bool)
    requires from <= i <= |register| && (first <==> Requests(register[..from]) == [])
    requires forall k :: from <= k < i ==> !Ends(register[k], first)
    ensures Requests(register[..i]) == Requests(register[..from])
    decreases i
  {
    if from < i {
      RequestsSkipped(register, from, i - 1, first);
      RequestsSnoc(register, i - 1);
    }
  }

  /** The wait ends with a request. */
  lemma NextRequest(register: seq<Option<nat>>, from: nat, i: nat, asked: nat, first: bool)
    requires from < i <= |register| && (first <==> Requests(register[..from]) == [])
    requires forall k :: from <= k < i - 1 ==> !Ends(register[k], first)
    requires register[i - 1] == Some(asked) && EventOk(Ask(asked), first)
    ensures Requests(register[..i]) == Requests(register[..from]) + [asked]
  {
    RequestsSkipped(register, from, i - 1, first);
    RequestsSnoc(register, i - 1);
  }

  /** Between two rounds */
  predicate AtRest(trace: seq<Event>, fw: seq<byte>, sent: nat, extra: nat)
    requires sent <= |fw|
  {
    && TraceOk(trace) && Asked(trace) == sent + extra && (extra > 0 ==> sent == |fw|)
    && (sent == 0 <==> trace == []) && (sent == 0 <==> Sizes(trace) == [])
    && (if extra == 0 then Receive(trace) == Card(0, fw[..sent]) else Delivered(trace, fw, sent, extra))
  }

  lemma StartRound(trace: seq<Event>, fw: seq<byte>, sent: nat, asked: nat, request: nat)
    requires sent < |fw| && AtRest(trace, fw, sent, 0) && EventOk(Ask(asked), trace == [])
    requires request == Min(asked, |fw| - sent)
    ensures InRound(trace + [Ask(asked)], fw, sent, request, asked - request)
    ensures Asked(trace + [Ask(asked)]) == sent + asked
  {
    ReceiveSnoc(trace, Ask(asked));
  }

  /** The cause of each result, in what was written and in the last reading */
  predicate Explained(ret: Result, trace: seq<Event>, register: seq<Option<nat>>, works: nat -> bool) {
    var last := if register == [] then Some(0) else register[|register| - 1];
    && (ret == BusError <==> LastWriteFailed(trace, works) || last == None)
    && (ret == GaveUp <==> trace != [] && last == Some(0))
    && (ret == HelperError <==> last.Some? && last.value % 2 == 1 && (trace == [] ==> last.value > 2))
  }

  /** Between two rounds: what the card got and what it asked for so far. Every transfer succeeded, and
      the last reading was a request. */
  predicate GoesWell(trace: seq<Event>, fw: seq<byte>, sent: nat, extra: nat, register: seq<Option<nat>>,
                     works: nat -> bool)
    requires sent <= |fw|
  {
    && AtRest(trace, fw, sent, extra) && WritesWork(trace, 0, works) && Sizes(trace) == Requests(register)
    && (sent == 0 <==> register == [])
    && (register != [] ==> EventOk(LastAsked(register), false))
  }

  function LastAsked(register: seq<Option<nat>>): Event
    requires register != []
  {
    if register[|register| - 1] == None then Ask(0) else Ask(register[|register| - 1].value)
  }

  lemma WorkedWhole(trace: seq<Event>, works: nat -> bool)
    requires WritesWork(trace, 0, works)
    ensures !LastWriteFailed(trace, works)
  {}

  /** A wait that ends without a request */
  lemma WaitExplained(ret: Result, trace: seq<Event>, register: seq<Option<nat>>, from: nat, i: nat, works: nat -> bool)
    requires from <= i <= |register| && WritesWork(trace, 0, works) && ret != Loaded && ret != HelperTimedOut
    requires i > from
    requires ret == BusError <==> register[i - 1] == None
    requires ret == GaveUp <==> trace != [] && register[i - 1] == Some(0)
    requires ret == HelperError <==>
      register[i - 1].Some? && register[i - 1].value % 2 == 1 && (trace == [] ==> register[i - 1].value > 2)
    ensures Explained(ret, trace, register[..i], works)
  {
    WorkedWhole(trace, works);
  }

  lemma TimeoutExplained(fw: seq<byte>, sent: nat, trace: seq<Event>, register: seq<Option<nat>>, from: nat,
                         works: nat -> bool)
    requires from <= |register| && sent <= |fw| && GoesWell(trace, fw, sent, 0, register[..from], works)
    requires |register| > from ==> !Ends(register[|register| - 1], sent == 0)
    ensures Explained(HelperTimedOut, trace, register, works)
  {
    WorkedWhole(trace, works);
    if |register| == from { assert register[..from] == register; }
  }

  /** One round of the outer loop: if_sdio.c:563-631 */
  method Round(buffer: array<byte>, fw: seq<byte>, sent0: nat, register: seq<Option<nat>>, read0: nat,
               trace0: seq<Event>, works: nat -> bool)
    returns (ret: Result, sent: nat, ghost extra: nat, trace: seq<Event>, read: nat)
    requires buffer.Length == CHUNK && sent0 < |fw| && read0 <= |register|
    requires GoesWell(trace0, fw, sent0, 0, register[..read0], works)
    modifies buffer
    ensures read0 <= read <= |register| && sent0 <= sent <= |fw| && TraceOk(trace)
    ensures ret == Loaded ==> sent > sent0 && GoesWell(trace, fw, sent, extra, register[..read], works)
    ensures ret != Loaded ==> Explained(ret, trace, register[..read], works)
    ensures ret != Loaded ==> LastWriteFailed(trace, works) || |Receive(trace).got| < |fw|
    ensures ret == HelperTimedOut ==> read == |register|
  {
    var first := sent0 == 0;
    sent, extra, trace := sent0, 0, trace0;
    var asked: nat;
    ret, asked, read := AwaitRequest(register, read0, first);
    if ret == HelperTimedOut {
      TimeoutExplained(fw, sent0, trace0, register, read0, works);
      assert register[..read] == register;
      return;
    }
    if ret != Loaded {
      WaitExplained(ret, trace0, register, read0, read, works);
      return;
    }
    NextRequest(register, read0, read, asked, first);
    var reqSize := Min(asked, |fw| - sent0);
    ret, extra, trace := Serve(buffer, fw, sent0, asked, reqSize, trace0, works);
    if ret == Loaded {
      sent := sent0 + reqSize;
      assert GoesWell(trace, fw, sent, extra, register[..read], works);
    } else {
      assert register[..read][read - 1] == Some(asked);
    }
  }

  /** The request that was read is served: if_sdio.c:608-630. */
  method Serve(buffer: array<byte>, fw: seq<byte>, sent: nat, asked: nat, reqSize: nat,
               trace0: seq<Event>, works: nat -> bool)
    returns (ret: Result, ghost extra: nat, trace: seq<Event>)
    requires buffer.Length == CHUNK && sent < |fw| && AtRest(trace0, fw, sent, 0) && WritesWork(trace0, 0, works)
    requires EventOk(Ask(asked), trace0 == []) && reqSize == Min(asked, |fw| - sent)
    modifies buffer
    ensures TraceOk(trace) && (ret == Loaded || ret == BusError)
    ensures ret == Loaded ==> AtRest(trace, fw, sent + reqSize, extra) && WritesWork(trace, 0, works)
    ensures ret == Loaded ==> Sizes(trace) == Sizes(trace0) + [asked]
    ensures ret == BusError ==> LastWriteFailed(trace, works)
  {
    SizesSnoc(trace0, Ask(asked));
    StartRound(trace0, fw, sent, asked, reqSize);
    extra := asked - reqSize;
    var ok: bool;
    ok, trace := SendRound(buffer, fw, sent, reqSize, extra, trace0 + [Ask(asked)], works);
    ret := if ok then Loaded else BusError;
  }

  /** `if_sdio_prog_real` up to waiting for the firmware to boot. `read` counts the readings it took.
      It succeeds if and only if every transfer did and the card has got the image: each byte once
      and in order, and, if the card asked for no more, nothing else. Each failure has its cause. */
  method ProgReal(fw: seq<byte>, register: seq<Option<nat>>, works: nat -> bool)
    returns (ret: Result, trace: seq<Event>, read: nat)
    ensures TraceOk(trace) && read <= |register|
    ensures ret == Loaded ==>
      var got := Receive(trace).got;
      |fw| <= |got| < |fw| + BLOCK && got[..|fw|] == fw && |fw| <= Asked(trace)
      && (Asked(trace) == |fw| ==> got == fw) && Sizes(trace) == Requests(register[..read])
    ensures ret == Loaded <==> WritesWork(trace, 0, works) && |Receive(trace).got| >= |fw|
    ensures Explained(ret, trace, register[..read], works)
    ensures ret == HelperTimedOut ==> read == |register|
  {
    var buffer := new byte[CHUNK](_ => 0);
    var sent: nat := 0;
    ghost var extra: nat := 0;
    trace, read := [], 0;
    assert register[..0] == [];
    while sent < |fw|
      invariant read <= |register| && sent <= |fw| && GoesWell(trace, fw, sent, extra, register[..read], works)
      decreases |fw| - sent
    {
      ret, sent, extra, trace, read := Round(buffer, fw, sent, register, read, trace, works);
      if ret != Loaded {
        if LastWriteFailed(trace, works) { assert trace[|trace| - 1].Write?; }
        return;
      }
    }
    ret := Loaded;
    WorkedWhole(trace, works);
    assert fw[..sent] == fw;
  }
}
