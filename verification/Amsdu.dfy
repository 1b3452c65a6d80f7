/**
 A-MSDU building, with a de-aggregator written from section 8.3.2.2 of IEEE Std 802.11-2012:
 subframes of DA, SA, a two-octet length and the MSDU, each but the last padded so that the next
 starts at a multiple of four octets from the start of the first.
 */
module Amsdu {
  import opened Wrappers

  const ETH_HLEN: nat := 14
  const LLC_SNAP_LEN: nat := 8

  /** An Ethernet frame: DA, SA, type, payload */
  predicate IsFrame(f: seq<byte>) { |f| >= ETH_HLEN }

  predicate AreFrames(fs: seq<seq<byte>>) { forall i :: 0 <= i < |fs| ==> IsFrame(fs[i]) }

  const RFC1042: seq<byte> := [0xaa, 0xaa, 0x03, 0x00, 0x00, 0x00]

  function BigEndian(n: nat): (s: seq<byte>) { [n / 256 % 256, n % 256] }

  /** `*pad = (4 - ((unsigned long)skb_aggr->tail & 0x3)) % 4` */
  function PadTo4(tail: nat): nat { (4 - tail % 4) % 4 }

  /** The subframe that carries a frame: the type moves behind a SNAP header. */
  function Subframe(f: seq<byte>): (s: seq<byte>)
    requires IsFrame(f)
    ensures |s| == |f| + LLC_SNAP_LEN
  {
    f[..12] + BigEndian(|f| - ETH_HLEN + LLC_SNAP_LEN) + RFC1042 + f[12..]
  }

  function Overwrite(b: seq<byte>, at: nat, s: seq<byte>): seq<byte>
    requires at + |s| <= |b|
  {
    b[..at] + s + b[at + |s|..]
  }

  /** Everything of the subframe but the payload */
  function Header(f: seq<byte>): (s: seq<byte>)
    requires IsFrame(f)
    ensures |s| == ETH_HLEN + LLC_SNAP_LEN
  {
    f[..12] + BigEndian(|f| - ETH_HLEN + LLC_SNAP_LEN) + RFC1042 + f[12..ETH_HLEN]
  }

  lemma HeaderAndPayload(f: seq<byte>)
    requires IsFrame(f)
    ensures Header(f) + f[ETH_HLEN..] == Subframe(f)
  {}

  /** The header is written in three pieces. */
  lemma HeaderPieces(f: seq<byte>, b: seq<byte>, room: seq<byte>)
    requires IsFrame(f) && |room| == ETH_HLEN + LLC_SNAP_LEN
    ensures
      var b1 := Overwrite(b + room, |b|, f[..12]);
      var b2 := Overwrite(b1, |b| + ETH_HLEN, RFC1042 + f[12..ETH_HLEN]);
      Overwrite(b2, |b| + 12, BigEndian(|f| - ETH_HLEN + LLC_SNAP_LEN)) == b + Header(f)
  {}

  // ----------------------------------------------------------------- the buffer

  /** A socket buffer with room at its tail. `base` is the address of its first byte. */
  class SkBuff {
    const buf: array<byte>
    const base: nat
    var len: nat

    ghost predicate Valid()
      reads this
    {
      len <= buf.Length
    }

    ghost function Contents(): seq<byte>
      requires Valid()
      reads this, buf
    {
      buf[..len]
    }

    constructor (base: nat, room: nat)
      ensures Valid() && len == 0 && buf.Length == room && this.base == base && fresh(buf)
    {
      buf := new byte[room](_ => 0);
      this.base := base;
      len := 0;
    }

    /** `skb_put`: the bytes are whatever the buffer held. */
    method Put(n: nat)
      requires Valid() && len + n <= buf.Length
      modifies `len
      ensures Valid() && len == old(len) + n && Contents() == old(Contents()) + buf[old(len)..len]
    {
      len := len + n;
    }

    /** `memcpy` to a place in the buffer */
    method Copy(at: nat, s: seq<byte>)
      requires Valid() && at + |s| <= len
      modifies buf
      ensures Valid() && Contents() == Overwrite(old(Contents()), at, s)
    {
      for i := 0 to |s|
        invariant forall j :: 0 <= j < buf.Length ==> buf[j] == if at <= j < at + i then s[j - at] else old(buf[j])
      {
        buf[at + i] := s[i];
      }
    }

    /** `skb_put_data` */
    method PutData(s: seq<byte>)
      requires Valid() && len + |s| <= buf.Length
      modifies `len, buf
      ensures Valid() && Contents() == old(Contents()) + s
    {
      Put(|s|);
      Copy(len - |s|, s);
    }

    /** `skb_trim` */
    method Trim(n: nat)
      requires Valid() && n <= len
      modifies `len
      ensures Valid() && len == n && Contents() == old(Contents())[..n]
    {
      len := n;
    }
  }

  method WriteHeader(aggr: SkBuff, src: seq<byte>)
    requires aggr.Valid() && IsFrame(src) && aggr.len + ETH_HLEN + LLC_SNAP_LEN <= aggr.buf.Length
    modifies aggr`len, aggr.buf
    ensures aggr.Valid() && aggr.Contents() == old(aggr.Contents()) + Header(src)
  {
    var start := aggr.len;
    ghost var before := aggr.Contents();
    aggr.Put(ETH_HLEN + LLC_SNAP_LEN);
    HeaderPieces(src, before, aggr.buf[start..aggr.len]);
    aggr.Copy(start, src[..12]);
    aggr.Copy(start + ETH_HLEN, RFC1042 + src[12..ETH_HLEN]);
    aggr.Copy(start + 12, BigEndian(|src| - ETH_HLEN + LLC_SNAP_LEN));
  }

  /** `mwifiex_11n_form_amsdu_pkt` */
  method FormAmsduPkt(aggr: SkBuff, src: seq<byte>) returns (pad: nat)
    requires aggr.Valid() && IsFrame(src) && aggr.len + |src| + LLC_SNAP_LEN <= aggr.buf.Length
    modifies aggr`len, aggr.buf
    ensures aggr.Valid() && aggr.Contents() == old(aggr.Contents()) + Subframe(src)
    ensures pad == PadTo4(aggr.base + aggr.len)
  {
    ghost var before := aggr.Contents();
    WriteHeader(aggr, src);
    aggr.PutData(src[ETH_HLEN..]);
    HeaderAndPayload(src);
    assert before + Header(src) + src[ETH_HLEN..] == before + (Header(src) + src[ETH_HLEN..]);
    pad := PadTo4(aggr.base + aggr.len);
  }

  // ----------------------------------------------------------------- aggregation

  /** Subframes one after the other, each with its padding */
  function Joined(fs: seq<seq<byte>>, pads: seq<seq<byte>>): seq<byte>
    requires |fs| == |pads| && AreFrames(fs)
  {
    if fs == [] then [] else Subframe(fs[0]) + pads[0] + Joined(fs[1..], pads[1..])
  }

  /** Every subframe, the first of which is at this address, is padded up to a multiple of four. */
  predicate Padded(at: nat, fs: seq<seq<byte>>, pads: seq<seq<byte>>)
    requires |fs| == |pads| && AreFrames(fs)
    decreases |fs|
  {
    fs != [] ==>
      && |pads[0]| == PadTo4(at + |Subframe(fs[0])|)
      && Padded(at + |Subframe(fs[0])| + |pads[0]|, fs[1..], pads[1..])
  }

  /** Every subframe but the last is. */
  predicate WellPadded(at: nat, fs: seq<seq<byte>>, pads: seq<seq<byte>>)
    requires |fs| == |pads| && AreFrames(fs)
    decreases |fs|
  {
    if fs == [] then true
    else if |fs| == 1 then pads[0] == []
    else
      && |pads[0]| == PadTo4(at + |Subframe(fs[0])|)
      && WellPadded(at + |Subframe(fs[0])| + |pads[0]|, fs[1..], pads[1..])
  }

  lemma {:induction false} JoinedSnoc(fs: seq<seq<byte>>, pads: seq<seq<byte>>, f: seq<byte>, p: seq<byte>)
    requires |fs| == |pads| && AreFrames(fs) && IsFrame(f)
    ensures Joined(fs + [f], pads + [p]) == Joined(fs, pads) + Subframe(f) + p
  {
    if fs == [] {
      assert fs + [f] == [f] && pads + [p] == [p];
    } else {
      assert (fs + [f])[1..] == fs[1..] + [f] && (pads + [p])[1..] == pads[1..] + [p];
      JoinedSnoc(fs[1..], pads[1..], f, p);
    }
  }

  lemma {:induction false} PaddedSnoc(at: nat, fs: seq<seq<byte>>, pads: seq<seq<byte>>, f: seq<byte>, p: seq<byte>)
    requires |fs| == |pads| && AreFrames(fs) && IsFrame(f) && Padded(at, fs, pads)
    requires |p| == PadTo4(at + |Joined(fs, pads)| + |Subframe(f)|)
    ensures Padded(at, fs + [f], pads + [p])
    decreases |fs|
  {
    if fs == [] {
      assert fs + [f] == [f] && pads + [p] == [p];
    } else {
      assert (fs + [f])[1..] == fs[1..] + [f] && (pads + [p])[1..] == pads[1..] + [p];
      PaddedSnoc(at + |Subframe(fs[0])| + |pads[0]|, fs[1..], pads[1..], f, p);
    }
  }

  lemma {:induction false} LastUnpadded(at: nat, fs: seq<seq<byte>>, pads: seq<seq<byte>>, f: seq<byte>)
    requires |fs| == |pads| && AreFrames(fs) && IsFrame(f) && Padded(at, fs, pads)
    ensures WellPadded(at, fs + [f], pads + [[]])
    decreases |fs|
  {
    if fs == [] {
      assert fs + [f] == [f] && pads + [[]] == [[]];
    } else {
      assert (fs + [f])[1..] == fs[1..] + [f] && (pads + [[]])[1..] == pads[1..] + [[]];
      LastUnpadded(at + |Subframe(fs[0])| + |pads[0]|, fs[1..], pads[1..], f);
    }
  }

  /** What others queued while the first k frames were being aggregated */
  function Arrived(arrivals: nat -> seq<seq<byte>>, k: nat): seq<seq<byte>> {
    if k == 0 then [] else Arrived(arrivals, k - 1) + arrivals(k - 1)
  }

  /** The aggregate holds these frames, the last of them followed by `pad` bytes. */
  ghost predicate Holds(base: nat, contents: seq<byte>, taken: seq<seq<byte>>, pads: seq<seq<byte>>, pad: nat) {
    if taken == [] then contents == [] && pads == [] && pad == 0
    else
      && AreFrames(taken) && |pads| == |taken| - 1 && pad <= |contents|
      && Padded(base, taken[..|pads|], pads)
      && contents[..|contents| - pad] == Joined(taken[..|pads|], pads) + Subframe(taken[|pads|])
  }

  lemma HoldsMore(base: nat, contents: seq<byte>, taken: seq<seq<byte>>, pads: seq<seq<byte>>, pad: nat, f: seq<byte>)
    returns (pads': seq<seq<byte>>)
    requires Holds(base, contents, taken, pads, pad) && IsFrame(f)
    requires taken != [] ==> pad == PadTo4(base + |contents| - pad)
    ensures Holds(base, contents + Subframe(f), taken + [f], pads', 0)
  {
    var all := taken + [f];
    if taken == [] {
      pads' := [];
      assert all[..0] == [];
    } else {
      var cut := |contents| - pad;
      var p := contents[cut..];
      pads' := pads + [p];
      JoinedSnoc(taken[..|pads|], pads, taken[|pads|], p);
      PaddedSnoc(base, taken[..|pads|], pads, taken[|pads|], p);
      assert taken[..|pads|] + [taken[|pads|]] == taken == all[..|pads'|];
      assert contents == contents[..cut] + p;
    }
    assert (contents + Subframe(f))[..|contents + Subframe(f)| - 0] == contents + Subframe(f);
  }

  lemma HoldsTrimmed(base: nat, contents: seq<byte>, taken: seq<seq<byte>>, pads: seq<seq<byte>>, pad: nat)
    returns (pads': seq<seq<byte>>)
    requires Holds(base, contents, taken, pads, pad)
    ensures |pads'| == |taken| && AreFrames(taken) && WellPadded(base, taken, pads')
    ensures pad <= |contents| && contents[..|contents| - pad] == Joined(taken, pads')
  {
    if taken == [] {
      pads' := [];
    } else {
      pads' := pads + [[]];
      var front, last := taken[..|pads|], taken[|pads|];
      assert front + [last] == taken;
      JoinedSnoc(front, pads, last, []);
      LastUnpadded(base, front, pads, last);
    }
  }

  /** The frames taken and the ones still queued are all there ever were, in order. */
  predicate Accounts(queue: seq<seq<byte>>, arrived: seq<seq<byte>>, taken: seq<seq<byte>>, rest: seq<seq<byte>>) {
    taken + rest == queue + arrived && AreFrames(taken) && AreFrames(rest)
  }

  lemma AccountsMore(queue: seq<seq<byte>>, arrived: seq<seq<byte>>, taken: seq<seq<byte>>, rest: seq<seq<byte>>,
                     more: seq<seq<byte>>)
    requires rest != [] && Accounts(queue, arrived, taken, rest) && AreFrames(more)
    ensures Accounts(queue, arrived + more, taken + [rest[0]], rest[1..] + more)
  {
    assert (taken + [rest[0]]) + (rest[1..] + more) == (taken + rest) + more;
  }

  lemma AccountsSplit(queue: seq<seq<byte>>, arrived: seq<seq<byte>>, taken: seq<seq<byte>>, rest: seq<seq<byte>>)
    requires Accounts(queue, arrived, taken, rest)
    ensures
      var all := queue + arrived;
      |taken| <= |all| && AreFrames(all) && all[..|taken|] == taken && all[|taken|..] == rest
  {
    assert queue + arrived == taken + rest;
  }

  /** Pads the last subframe if there is room. */
  method PadTail(aggr: SkBuff, pad: nat) returns (fits: bool)
    requires aggr.Valid()
    modifies aggr`len
    ensures aggr.Valid() && aggr.len == old(aggr.len) + (if fits then pad else 0)
    ensures aggr.Contents()[..old(aggr.len)] == old(aggr.Contents())
    ensures !fits ==> aggr.buf.Length < aggr.len + pad
  {
    if aggr.buf.Length - aggr.len < pad {
      fits := false;
    } else {
      aggr.Put(pad);
      fits := true;
    }
  }

  lemma HoldsPadded(base: nat, contents: seq<byte>, taken: seq<seq<byte>>, pads: seq<seq<byte>>, padded: seq<byte>)
    requires Holds(base, contents, taken, pads, 0) && taken != []
    requires |contents| <= |padded| && padded[..|contents|] == contents
    ensures Holds(base, padded, taken, pads, |padded| - |contents|)
  {
    assert contents[..|contents| - 0] == contents;
  }

  /** One subframe is formed and padded; without room for the padding it stays unpadded, and the
      last. */
  method AddMsdu(aggr: SkBuff, src: seq<byte>, pad0: nat, ghost taken: seq<seq<byte>>, ghost pads: seq<seq<byte>>)
    returns (pad: nat, fits: bool, ghost pads': seq<seq<byte>>)
    requires aggr.Valid() && IsFrame(src) && aggr.len + |src| + LLC_SNAP_LEN <= aggr.buf.Length
    requires Holds(aggr.base, aggr.Contents(), taken, pads, pad0)
    requires taken != [] ==> pad0 == PadTo4(aggr.base + aggr.len - pad0)
    modifies aggr`len, aggr.buf
    ensures aggr.Valid() && Holds(aggr.base, aggr.Contents(), taken + [src], pads', pad)
    ensures aggr.len - pad == old(aggr.len) + |src| + LLC_SNAP_LEN
    ensures fits ==> pad == PadTo4(aggr.base + aggr.len - pad)
    ensures !fits ==> pad == 0 && NoRoom(aggr.base, aggr.buf.Length, aggr.len)
  {
    pads' := HoldsMore(aggr.base, aggr.Contents(), taken, pads, pad0, src);
    pad := FormAmsduPkt(aggr, src);
    ghost var formed := aggr.Contents();
    fits := PadTail(aggr, pad);
    if !fits { pad := 0; }
    HoldsPadded(aggr.base, formed, taken + [src], pads', aggr.Contents());
  }

  /** The next frame does not fit behind the padded aggregate, or the padding does not fit. */
  predicate Full(base: nat, room: nat, txBufSize: nat, aggrNum: nat, length: nat, next: nat) {
    TooLong(base, txBufSize, aggrNum, length, next) || (aggrNum > 0 && NoRoom(base, room, length))
  }

  function PaddedLength(base: nat, aggrNum: nat, length: nat): nat {
    if aggrNum == 0 then length else length + PadTo4(base + length)
  }

  predicate TooLong(base: nat, txBufSize: nat, aggrNum: nat, length: nat, next: nat) {
    PaddedLength(base, aggrNum, length) + next + LLC_SNAP_LEN > txBufSize
  }

  predicate NoRoom(base: nat, room: nat, length: nat) { room < length + PadTo4(base + length) }

  /** The next frame passes the size test, and the buffer cannot hold it behind the padded aggregate. */
  predicate Overruns(base: nat, room: nat, txBufSize: nat, aggrNum: nat, length: nat, next: nat) {
    var padded := PaddedLength(base, aggrNum, length);
    padded <= room < padded + next + LLC_SNAP_LEN <= txBufSize
  }

  // -------------------------------------------------------------- de-aggregation

  /** An MSDU with an RFC 1042 header is an Ethernet frame's; any other is one with a length. */
  function Recombine(addresses: seq<byte>, msdu: seq<byte>): seq<byte> {
    if |msdu| >= LLC_SNAP_LEN && msdu[..6] == RFC1042 then addresses + msdu[6..]
    else addresses + BigEndian(|msdu|) + msdu
  }

  function RoundUp4(n: nat): nat { (n + 3) / 4 * 4 }

  function LengthField(b: seq<byte>): nat
    requires |b| >= ETH_HLEN
  {
    var hi: nat, lo: nat := b[12], b[13];
    256 * hi + lo
  }

  /** The receiver of section 8.3.2.2 */
  function Deaggregate(b: seq<byte>): Option<seq<seq<byte>>>
    decreases |b|
  {
    if b == [] then Some([])
    else if |b| < ETH_HLEN then None
    else
      var end := ETH_HLEN + LengthField(b);
      if end > |b| then None
      else
        var frame := Recombine(b[..12], b[ETH_HLEN..end]);
        if end == |b| then Some([frame])
        else if RoundUp4(end) > |b| then None
        else
          var rest := Deaggregate(b[RoundUp4(end)..]);
          if rest == None then None else Some([frame] + rest.value)
  }

  // ------------------------------------------------------------------- round trip

  /** The padding is what the receiver skips exactly if the subframe starts at an aligned address. */
  lemma PaddingIffAligned(at: nat, n: nat)
    ensures n + PadTo4(at + n) == RoundUp4(n) <==> at % 4 == 0
  {}

  lemma ParseSubframe(f: seq<byte>, tail: seq<byte>)
    requires IsFrame(f) && |f| + LLC_SNAP_LEN < 0x1_0000
    ensures
      var b := Subframe(f) + tail;
      ETH_HLEN + LengthField(b) == |Subframe(f)| && Recombine(b[..12], b[ETH_HLEN..|Subframe(f)|]) == f
  {
    var b, n := Subframe(f) + tail, |f| - ETH_HLEN + LLC_SNAP_LEN;
    assert b[12] == BigEndian(n)[0] && b[13] == BigEndian(n)[1];
    var msdu := b[ETH_HLEN..|Subframe(f)|];
    assert msdu == RFC1042 + f[12..];
    assert msdu[..6] == RFC1042 && msdu[6..] == f[12..] && b[..12] == f[..12];
  }

  lemma {:induction false} JoinedLonger(fs: seq<seq<byte>>, pads: seq<seq<byte>>, i: nat)
    requires |fs| == |pads| && AreFrames(fs) && i < |fs|
    ensures |fs[i]| + LLC_SNAP_LEN <= |Joined(fs, pads)|
    decreases |fs|
  {
    if i > 0 { JoinedLonger(fs[1..], pads[1..], i - 1); }
  }

  lemma DeaggregateLast(f: seq<byte>)
    requires IsFrame(f) && |f| + LLC_SNAP_LEN < 0x1_0000
    ensures Deaggregate(Subframe(f)) == Some([f])
  {
    ParseSubframe(f, []);
    assert Subframe(f) + [] == Subframe(f);
  }

  lemma DeaggregateStep(b: seq<byte>, end: nat, next: nat, rest: seq<byte>, fs: seq<seq<byte>>)
    requires |b| >= ETH_HLEN && end == ETH_HLEN + LengthField(b) < |b| && next == RoundUp4(end) <= |b|
    requires rest == b[next..] && Deaggregate(rest) == Some(fs)
    ensures Deaggregate(b) == Some([Recombine(b[..12], b[ETH_HLEN..end])] + fs)
  {
    assert b != [];
  }

  lemma DeaggregateMore(f: seq<byte>, pad: seq<byte>, rest: seq<byte>, fs: seq<seq<byte>>)
    requires IsFrame(f) && |f| + LLC_SNAP_LEN < 0x1_0000 && rest != []
    requires RoundUp4(|Subframe(f)|) == |Subframe(f)| + |pad| && Deaggregate(rest) == Some(fs)
    ensures Deaggregate(Subframe(f) + pad + rest) == Some([f] + fs)
  {
    Regroup(Subframe(f), pad, rest);
    ParseSubframe(f, pad + rest);
    DropFront(Subframe(f) + pad, rest);
    DeaggregateStep(Subframe(f) + pad + rest, |Subframe(f)|, |Subframe(f)| + |pad|, rest, fs);
  }

  lemma Regroup(a: seq<byte>, b: seq<byte>, c: seq<byte>)
    ensures a + b + c == a + (b + c)
  {}

  lemma DropFront(a: seq<byte>, b: seq<byte>)
    ensures (a + b)[|a|..] == b
  {}

  lemma AlignedNext(at: nat, n: nat)
    requires at % 4 == 0
    ensures (at + n + PadTo4(at + n)) % 4 == 0
  {}

  lemma FirstPadded(at: nat, n: nat, pad: nat)
    requires at % 4 == 0 && pad == PadTo4(at + n)
    ensures RoundUp4(n) == n + pad
  {
    PaddingIffAligned(at, n);
  }

  /** De-aggregating what was built gives back exactly the frames, in order. */
  lemma {:induction false} RoundTrip(at: nat, fs: seq<seq<byte>>, pads: seq<seq<byte>>)
    requires |fs| == |pads| && AreFrames(fs) && WellPadded(at, fs, pads)
    requires at % 4 == 0 && |Joined(fs, pads)| < 0x1_0000
    ensures Deaggregate(Joined(fs, pads)) == Some(fs)
    decreases |fs|
  {
    if fs != [] {
      var end, rest := |Subframe(fs[0])|, Joined(fs[1..], pads[1..]);
      JoinedLonger(fs, pads, 0);
      if |fs| == 1 {
        assert rest == [] && Joined(fs, pads) == Subframe(fs[0]) && fs == [fs[0]];
        DeaggregateLast(fs[0]);
      } else {
        AlignedNext(at, end);
        JoinedLonger(fs[1..], pads[1..], 0);
        RoundTrip(at + end + |pads[0]|, fs[1..], pads[1..]);
        FirstPadded(at, end, |pads[0]|);
        DeaggregateMore(fs[0], pads[0], rest, fs[1..]);
        assert fs == [fs[0]] + fs[1..];
      }
    }
  }

  lemma JoinedPrefix(fs: seq<seq<byte>>, pads: seq<seq<byte>>, k: nat)
    requires |fs| == |pads| && AreFrames(fs) && 0 < k <= |fs|
    ensures |Joined(fs[..k], pads[..k])| ==
      |Subframe(fs[0])| + |pads[0]| + |Joined(fs[1..][..k - 1], pads[1..][..k - 1])|
  {
    assert fs[..k][1..] == fs[1..][..k - 1] && pads[..k][1..] == pads[1..][..k - 1];
  }

  /** Every subframe starts at a multiple of four. */
  lemma {:induction false} SubframesAligned(at: nat, fs: seq<seq<byte>>, pads: seq<seq<byte>>, k: nat)
    requires |fs| == |pads| && AreFrames(fs) && WellPadded(at, fs, pads) && at % 4 == 0 && k < |fs|
    ensures (at + |Joined(fs[..k], pads[..k])|) % 4 == 0
    decreases |fs|
  {
    if k > 0 {
      AlignedNext(at, |Subframe(fs[0])|);
      SubframesAligned(at + |Subframe(fs[0])| + |pads[0]|, fs[1..], pads[1..], k - 1);
      JoinedPrefix(fs, pads, k);
    }
  }

  // ------------------------------------------------------------- the aggregation loop

  /** How the loop ends: with an aggregate, with a list that has gone away in between, or with a
      frame that the size test lets through and the buffer cannot hold, on which `skb_put` panics. */
  datatype Outcome = Built | ListGone | BufferOverrun

  /** The aggregate is the first frames of the queue and what was added to it, and there was a
      reason to stop. */
  ghost predicate Aggregated(base: nat, room: nat, txBufSize: nat, all: seq<seq<byte>>, aggrNum: nat,
                             rest: seq<seq<byte>>, contents: seq<byte>, pads: seq<seq<byte>>) {
    && aggrNum <= |all| && AreFrames(all) && rest == all[aggrNum..] && |pads| == aggrNum
    && contents == Joined(all[..aggrNum], pads) && WellPadded(base, all[..aggrNum], pads)
    && |contents| <= txBufSize
    && (rest != [] ==> Full(base, room, txBufSize, aggrNum, |contents|, |rest[0]|))
  }

  /** What the loop keeps */
  ghost predicate Aggregating(base: nat, txBufSize: nat, queue: seq<seq<byte>>, arrived: seq<seq<byte>>,
                              taken: seq<seq<byte>>, rest: seq<seq<byte>>, contents: seq<byte>,
                              pads: seq<seq<byte>>, pad: nat) {
    && Accounts(queue, arrived, taken, rest)
    && Holds(base, contents, taken, pads, pad)
    && pad <= |contents| <= txBufSize + pad
  }

  /** Why the loop stops, or what the next round may count on */
  predicate Continues(base: nat, room: nat, txBufSize: nat, more: bool, aggrNum: nat, rest: seq<seq<byte>>,
                      cut: int, pad: nat)
    requires cut >= 0
  {
    match more
    case true => rest != [] && (aggrNum > 0 ==> pad == PadTo4(base + cut))
    case false => rest == [] || Full(base, room, txBufSize, aggrNum, cut, |rest[0]|)
  }

  lemma SizeTestIsTooLong(base: nat, room: nat, txBufSize: nat, aggrNum: nat, rest: seq<seq<byte>>,
                          cut: nat, pad: nat)
    requires Continues(base, room, txBufSize, true, aggrNum, rest, cut, pad)
    requires aggrNum == 0 ==> pad == 0
    requires cut + pad + |rest[0]| + LLC_SNAP_LEN > txBufSize
    ensures Continues(base, room, txBufSize, false, aggrNum, rest, cut, pad)
  {}

  /** Where the loop is */
  predicate Standing(base: nat, room: nat, txBufSize: nat, outcome: Outcome, more: bool, aggrNum: nat,
                     rest: seq<seq<byte>>, cut: int, pad: nat, alive: nat -> bool)
    requires cut >= 0
  {
    match outcome
    case Built => Continues(base, room, txBufSize, more, aggrNum, rest, cut, pad)
    case BufferOverrun =>
      rest != [] && Overruns(base, room, txBufSize, aggrNum, cut, |rest[0]|)
      && cut + pad == PaddedLength(base, aggrNum, cut)
    case ListGone => aggrNum > 0 && !alive(aggrNum)
  }

  lemma SizeTestOverruns(base: nat, room: nat, txBufSize: nat, aggrNum: nat, rest: seq<seq<byte>>,
                         cut: nat, pad: nat, alive: nat -> bool)
    requires Continues(base, room, txBufSize, true, aggrNum, rest, cut, pad)
    requires aggrNum == 0 ==> pad == 0
    requires cut + pad <= room < cut + pad + |rest[0]| + LLC_SNAP_LEN <= txBufSize
    ensures Standing(base, room, txBufSize, BufferOverrun, true, aggrNum, rest, cut, pad, alive)
  {}

  /** What has become of the first frame, which needs `length` bytes */
  predicate FirstFrame(room: nat, txBufSize: nat, more: bool, outcome: Outcome, aggrNum: nat, length: nat) {
    match outcome
    case BufferOverrun => if aggrNum > 0 then length <= txBufSize && length <= room else room < length <= txBufSize
    case ListGone => aggrNum > 0 && length <= txBufSize && length <= room
    case Built => if aggrNum > 0 then length <= txBufSize && length <= room else more || length > txBufSize
  }

  /** One round: the next frame goes in, while others queue `added`. */
  method AddNext(aggr: SkBuff, txBufSize: nat, aggrNum: nat, rest: seq<seq<byte>>, pad: nat, added: seq<seq<byte>>,
                 ghost queue: seq<seq<byte>>, ghost arrived: seq<seq<byte>>, ghost taken: seq<seq<byte>>,
                 ghost pads: seq<seq<byte>>)
    returns (rest': seq<seq<byte>>, pad': nat, more: bool, ghost pads': seq<seq<byte>>)
    requires aggr.Valid() && pad <= aggr.len && AreFrames(added) && rest != [] && aggrNum == |taken|
    requires Aggregating(aggr.base, txBufSize, queue, arrived, taken, rest, aggr.Contents(), pads, pad)
    requires Continues(aggr.base, aggr.buf.Length, txBufSize, true, aggrNum, rest, aggr.len - pad, pad)
    requires aggr.len + |rest[0]| + LLC_SNAP_LEN <= txBufSize
    requires aggr.len + |rest[0]| + LLC_SNAP_LEN <= aggr.buf.Length
    modifies aggr`len, aggr.buf
    ensures aggr.Valid() && pad' <= aggr.len && aggr.len > old(aggr.len) && rest' == rest[1..] + added
    ensures Aggregating(aggr.base, txBufSize, queue, arrived + added, taken + [rest[0]], rest', aggr.Contents(),
                        pads', pad')
    ensures Continues(aggr.base, aggr.buf.Length, txBufSize, more, aggrNum + 1, rest', aggr.len - pad', pad')
  {
    pad', more, pads' := AddMsdu(aggr, rest[0], pad, taken, pads);
    AccountsMore(queue, arrived, taken, rest, added);
    rest' := rest[1..] + added;
    more := more && rest' != [];
  }

  /** At an aligned address, and within the 16 bits of `tx_buf_size`, the receiver gets the frames. */
  ghost predicate Received(base: nat, txBufSize: nat, frames: seq<seq<byte>>, contents: seq<byte>) {
    base % 4 == 0 && txBufSize < 0x1_0000 ==> Deaggregate(contents) == Some(frames)
  }

  lemma ReceiverGetsFrames(base: nat, room: nat, txBufSize: nat, all: seq<seq<byte>>, aggrNum: nat,
                           rest: seq<seq<byte>>, contents: seq<byte>, pads: seq<seq<byte>>)
    requires Aggregated(base, room, txBufSize, all, aggrNum, rest, contents, pads)
    ensures aggrNum <= |all| && Received(base, txBufSize, all[..aggrNum], contents)
  {
    if base % 4 == 0 && txBufSize < 0x1_0000 { RoundTrip(base, all[..aggrNum], pads); }
  }

  /** The trimmed aggregate */
  lemma LoopEnds(base: nat, room: nat, txBufSize: nat, queue: seq<seq<byte>>, arrived: seq<seq<byte>>,
                 taken: seq<seq<byte>>, rest: seq<seq<byte>>, contents: seq<byte>, pads: seq<seq<byte>>, pad: nat,
                 trimmed: seq<byte>)
    returns (pads': seq<seq<byte>>)
    requires Aggregating(base, txBufSize, queue, arrived, taken, rest, contents, pads, pad)
    requires trimmed == contents[..|contents| - pad]
    requires Continues(base, room, txBufSize, false, |taken|, rest, |trimmed|, pad)
    ensures Aggregated(base, room, txBufSize, queue + arrived, |taken|, rest, trimmed, pads')
  {
    pads' := HoldsTrimmed(base, contents, taken, pads, pad);
    AccountsSplit(queue, arrived, taken, rest);
  }

  /** The last subframe needs no padding. */
  method Finish(aggr: SkBuff, txBufSize: nat, rest: seq<seq<byte>>, pad: nat, ghost queue: seq<seq<byte>>,
                ghost arrived: seq<seq<byte>>, ghost taken: seq<seq<byte>>, ghost pads: seq<seq<byte>>)
    returns (ghost pads': seq<seq<byte>>)
    requires aggr.Valid() && pad <= aggr.len
    requires Aggregating(aggr.base, txBufSize, queue, arrived, taken, rest, aggr.Contents(), pads, pad)
    requires Continues(aggr.base, aggr.buf.Length, txBufSize, false, |taken|, rest, aggr.len - pad, pad)
    modifies aggr`len
    ensures aggr.Valid() && |taken| <= |queue + arrived| && aggr.len == old(aggr.len) - pad
    ensures Aggregated(aggr.base, aggr.buf.Length, txBufSize, queue + arrived, |taken|, rest, aggr.Contents(), pads')
    ensures Received(aggr.base, txBufSize, (queue + arrived)[..|taken|], aggr.Contents())
  {
    ghost var contents := aggr.Contents();
    aggr.Trim(aggr.len - pad);
    pads' := LoopEnds(aggr.base, aggr.buf.Length, txBufSize, queue, arrived, taken, rest, contents, pads, pad,
                      aggr.Contents());
    ReceiverGetsFrames(aggr.base, aggr.buf.Length, txBufSize, queue + arrived, |taken|, rest, aggr.Contents(), pads');
  }

  /** One round of the loop: the size test, and the next frame if it passes. */
  method Round(aggr: SkBuff, txBufSize: nat, aggrNum: nat, rest: seq<seq<byte>>, pad: nat, added: seq<seq<byte>>,
               alive: nat -> bool, ghost queue: seq<seq<byte>>, ghost arrived: seq<seq<byte>>,
               ghost taken: seq<seq<byte>>, ghost pads: seq<seq<byte>>)
    returns (outcome: Outcome, more: bool, another: bool, rest': seq<seq<byte>>, pad': nat, ghost pads': seq<seq<byte>>)
    requires aggr.Valid() && pad <= aggr.len && AreFrames(added) && aggrNum == |taken|
    requires Aggregating(aggr.base, txBufSize, queue, arrived, taken, rest, aggr.Contents(), pads, pad)
    requires Continues(aggr.base, aggr.buf.Length, txBufSize, true, aggrNum, rest, aggr.len - pad, pad)
    modifies aggr`len, aggr.buf
    ensures aggr.Valid() && pad' <= aggr.len
    ensures another ==> aggr.len > old(aggr.len) && outcome != BufferOverrun
    ensures another ==> old(aggr.len) + |rest[0]| + LLC_SNAP_LEN <= txBufSize
    ensures another ==> old(aggr.len) + |rest[0]| + LLC_SNAP_LEN <= aggr.buf.Length
    ensures !another ==> rest' == rest && aggr.len == old(aggr.len) && outcome != ListGone
    ensures !another && outcome == Built ==> !more && aggr.len + |rest[0]| + LLC_SNAP_LEN > txBufSize
    ensures outcome == BufferOverrun ==> aggr.buf.Length < aggr.len + |rest[0]| + LLC_SNAP_LEN <= txBufSize
    ensures another ==>
      Aggregating(aggr.base, txBufSize, queue, arrived + added, taken + [rest[0]], rest', aggr.Contents(), pads', pad')
    ensures !another ==> aggr.Contents() == old(aggr.Contents()) && pads' == pads && pad' == pad
    ensures Standing(aggr.base, aggr.buf.Length, txBufSize, outcome, more, if another then aggrNum + 1 else aggrNum,
                     rest', aggr.len - pad', pad', alive)
  {
    outcome, more, another, rest', pad', pads' := Built, true, false, rest, pad, pads;
    var length := aggr.len + |rest[0]| + LLC_SNAP_LEN;
    if length > txBufSize {
      SizeTestIsTooLong(aggr.base, aggr.buf.Length, txBufSize, aggrNum, rest, aggr.len - pad, pad);
      more := false;
    } else if length > aggr.buf.Length {
      SizeTestOverruns(aggr.base, aggr.buf.Length, txBufSize, aggrNum, rest, aggr.len - pad, pad, alive);
      outcome := BufferOverrun;
    } else {
      rest', pad', more, pads' := AddNext(aggr, txBufSize, aggrNum, rest, pad, added, queue, arrived, taken, pads);
      another := true;
      if !alive(aggrNum + 1) { outcome := ListGone; }
    }
  }

  /** The aggregation loop. Each time the lock is dropped others may queue frames, and the list may
      go away. */
  method FillAggregate(aggr: SkBuff, queue: seq<seq<byte>>, txBufSize: nat, arrivals: nat -> seq<seq<byte>>,
                       alive: nat -> bool)
    returns (outcome: Outcome, rest: seq<seq<byte>>, aggrNum: nat, pad: nat,
             ghost taken: seq<seq<byte>>, ghost pads: seq<seq<byte>>)
    requires queue != [] && AreFrames(queue) && forall k :: AreFrames(arrivals(k))
    requires aggr.Valid() && aggr.len == 0
    modifies aggr`len, aggr.buf
    ensures aggr.Valid() && |taken| == aggrNum && pad <= aggr.len
    ensures Aggregating(aggr.base, txBufSize, queue, Arrived(arrivals, aggrNum), taken, rest, aggr.Contents(), pads,
                        pad)
    ensures Standing(aggr.base, aggr.buf.Length, txBufSize, outcome, false, aggrNum, rest, aggr.len - pad, pad, alive)
    ensures outcome == BufferOverrun && aggrNum == 0 <==> aggr.buf.Length < |queue[0]| + LLC_SNAP_LEN <= txBufSize
  {
    rest, aggrNum, pad, taken, pads, outcome := queue, 0, 0, [], [], Built;
    var more := true;
    while more && outcome == Built
      invariant aggr.Valid() && |taken| == aggrNum
      invariant Aggregating(aggr.base, txBufSize, queue, Arrived(arrivals, aggrNum), taken, rest, aggr.Contents(), pads,
                            pad)
      invariant Standing(aggr.base, aggr.buf.Length, txBufSize, outcome, more, aggrNum, rest, aggr.len - pad, pad,
                         alive)
      invariant FirstFrame(aggr.buf.Length, txBufSize, more, outcome, aggrNum, |queue[0]| + LLC_SNAP_LEN)
      invariant aggrNum == 0 ==> aggr.len == 0 && rest == queue
      decreases outcome == Built, more, txBufSize - aggr.len
    {
      ghost var next := taken + [rest[0]];
      var one;
      outcome, more, one, rest, pad, pads := Round(aggr, txBufSize, aggrNum, rest, pad, arrivals(aggrNum), alive, queue,
                                                   Arrived(arrivals, aggrNum), taken, pads);
      if one { taken, aggrNum := next, aggrNum + 1; }
    }
  }

  /** `mwifiex_11n_aggregate_pkt` up to the TxPD: nothing is sent if the list has gone away. */
  method AggregatePkt(queue: seq<seq<byte>>, txBufSize: nat, room: nat, base: nat,
                      arrivals: nat -> seq<seq<byte>>, alive: nat -> bool)
    returns (outcome: Outcome, aggr: SkBuff, rest: seq<seq<byte>>, aggrNum: nat, ghost pads: seq<seq<byte>>,
             ghost length: nat)
    requires queue != [] && AreFrames(queue) && forall k :: AreFrames(arrivals(k))
    ensures aggr.Valid() && fresh(aggr) && fresh(aggr.buf)
    ensures outcome == Built ==>
      Aggregated(base, room, txBufSize, queue + Arrived(arrivals, aggrNum), aggrNum, rest, aggr.Contents(), pads)
    ensures outcome == Built ==>
      aggrNum <= |queue + Arrived(arrivals, aggrNum)| &&
      Received(base, txBufSize, (queue + Arrived(arrivals, aggrNum))[..aggrNum], aggr.Contents())
    ensures outcome == ListGone ==> aggrNum > 0 && !alive(aggrNum)
    ensures outcome == BufferOverrun ==>
      rest != [] && room < |aggr.Contents()| + |rest[0]| + LLC_SNAP_LEN <= txBufSize
    ensures outcome == Built ==> length == |aggr.Contents()|
    ensures outcome != ListGone ==>
      (outcome == BufferOverrun <==> rest != [] && Overruns(base, room, txBufSize, aggrNum, length, |rest[0]|))
    ensures outcome == BufferOverrun && aggrNum == 0 <==> room < |queue[0]| + LLC_SNAP_LEN <= txBufSize
  {
    aggr := new SkBuff(base, room);
    var pad;
    ghost var taken;
    outcome, rest, aggrNum, pad, taken, pads := FillAggregate(aggr, queue, txBufSize, arrivals, alive);
    length := aggr.len - pad;
    if outcome == Built {
      pads := Finish(aggr, txBufSize, rest, pad, queue, Arrived(arrivals, aggrNum), taken, pads);
    }
  }
}
