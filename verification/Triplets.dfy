/**
 The 802.11d domain information built for the firmware: runs of enabled channels that follow each
 other at the same power become triplets (first channel, number of channels, power).
 */
module Triplets {
  import opened Wrappers

  datatype Channel = Channel(number: byte, power: byte, disabled: bool)
  datatype Pair = Pair(number: int, power: int)
  datatype Triplet = Triplet(first: byte, count: nat, power: byte)

  /** The enabled channels, in list order */
  function Enabled(channels: seq<Channel>): seq<Pair> {
    if channels == [] then []
    else
      var c := channels[|channels| - 1];
      Enabled(channels[..|channels| - 1]) + if c.disabled then [] else [Pair(c.number, c.power)]
  }

  /** The channels a triplet stands for */
  function Span(first: int, count: nat, power: int): (s: seq<Pair>)
    ensures |s| == count
  {
    seq(count, i requires 0 <= i < count => Pair(first + i, power))
  }

  function Expand(ts: seq<Triplet>): seq<Pair> {
    if ts == [] then []
    else
      var t := ts[|ts| - 1];
      Expand(ts[..|ts| - 1]) + Span(t.first, t.count, t.power)
  }

  predicate Follows(p: Pair, q: Pair) { q.number == p.number + 1 && q.power == p.power }

  /** How many maximal runs there are in a list of channels */
  function Runs(ps: seq<Pair>): nat {
    if ps == [] then 0
    else if |ps| == 1 then 1
    else Runs(ps[..|ps| - 1]) + if Follows(ps[|ps| - 2], ps[|ps| - 1]) then 0 else 1
  }

  /** Two neighbours that could be one triplet */
  predicate Mergeable(t: Triplet, u: Triplet) {
    u.first == t.first + t.count && u.power == t.power
  }

  predicate NoneMergeable(ts: seq<Triplet>) {
    forall k :: 0 <= k < |ts| - 1 ==> !Mergeable(ts[k], ts[k + 1])
  }

  /** The pairs so far, the last of them those of the open run */
  ghost predicate Open(ps: seq<Pair>, done: seq<Triplet>, first: int, count: nat, power: int) {
    count > 0 && ps == Expand(done) + Span(first, count, power) && Runs(ps) == |done| + 1
  }

  /** The open run has not been a continuation of the last triplet. */
  predicate Apart(done: seq<Triplet>, first: int, power: int) {
    NoneMergeable(done) &&
    (done != [] ==> var t := done[|done| - 1]; !(first == t.first + t.count && power == t.power))
  }

  lemma Extend(ps: seq<Pair>, done: seq<Triplet>, first: int, count: nat, power: int)
    requires Open(ps, done, first, count, power)
    ensures Open(ps + [Pair(first + count, power)], done, first, count + 1, power)
  {
    var q := Pair(first + count, power);
    assert ps[|ps| - 1] == Pair(first + count - 1, power);
    assert (ps + [q])[..|ps|] == ps;
    assert Span(first, count, power) + [q] == Span(first, count + 1, power);
    assert Expand(done) + (Span(first, count, power) + [q]) == ps + [q];
  }

  lemma Close(ps: seq<Pair>, done: seq<Triplet>, first: byte, count: nat, power: byte)
    requires Open(ps, done, first, count, power)
    ensures Expand(done + [Triplet(first, count, power)]) == ps
  {
    assert (done + [Triplet(first, count, power)])[..|done|] == done;
  }

  lemma Start(ps: seq<Pair>, done: seq<Triplet>, first: byte, count: nat, power: byte, q: Pair)
    requires Open(ps, done, first, count, power) && !Follows(Pair(first + count - 1, power), q)
    ensures Open(ps + [q], done + [Triplet(first, count, power)], q.number, 1, q.power)
  {
    Close(ps, done, first, count, power);
    assert ps[|ps| - 1] == Pair(first + count - 1, power);
    assert (ps + [q])[..|ps|] == ps;
    assert Span(q.number, 1, q.power) == [q];
  }

  /** Everything the loop keeps while a run is open */
  ghost predicate Running(ps: seq<Pair>, done: seq<Triplet>, first: int, count: nat, power: int) {
    Open(ps, done, first, count, power) && Apart(done, first, power)
  }

  lemma NewRun(ps: seq<Pair>, done: seq<Triplet>, first: byte, count: nat, power: byte, q: Pair)
    requires Running(ps, done, first, count, power) && !Follows(Pair(first + count - 1, power), q)
    ensures Running(ps + [q], done + [Triplet(first, count, power)], q.number, 1, q.power)
    ensures |done| + 2 <= Runs(ps + [q])
  {
    Start(ps, done, first, count, power, q);
  }

  lemma FirstRun(q: Pair)
    ensures Running([q], [], q.number, 1, q.power)
  {
    assert Span(q.number, 1, q.power) == [q];
  }

  lemma Finish(ps: seq<Pair>, done: seq<Triplet>, first: byte, count: nat, power: byte)
    requires Running(ps, done, first, count, power)
    ensures
      var ts := done + [Triplet(first, count, power)];
      Expand(ts) == ps && NoneMergeable(ts) && |ts| == Runs(ps)
  {
    Close(ps, done, first, count, power);
  }

  lemma {:induction false} RunsBounded(ps: seq<Pair>, qs: seq<Pair>)
    ensures Runs(ps) <= Runs(ps + qs)
    decreases |qs|
  {
    if qs == [] {
      assert ps + qs == ps;
    } else {
      RunsBounded(ps, qs[..|qs| - 1]);
      assert (ps + qs)[..|ps + qs| - 1] == ps + qs[..|qs| - 1];
    }
  }

  lemma {:induction false} EnabledAppend(channels: seq<Channel>, i: nat) returns (more: seq<Pair>)
    requires i <= |channels|
    ensures Enabled(channels) == Enabled(channels[..i]) + more
    decreases |channels|
  {
    if i == |channels| {
      more := [];
      assert channels[..i] == channels;
    } else {
      var front := channels[..|channels| - 1];
      more := EnabledAppend(front, i);
      assert front[..i] == channels[..i];
      var c := channels[|channels| - 1];
      more := more + if c.disabled then [] else [Pair(c.number, c.power)];
    }
  }

  lemma RunsSoFar(channels: seq<Channel>, i: nat)
    requires i <= |channels|
    ensures Runs(Enabled(channels[..i])) <= Runs(Enabled(channels))
  {
    var more := EnabledAppend(channels, i);
    RunsBounded(Enabled(channels[..i]), more);
  }

  // --------------------------------------------------------------------- the loop

  /** The variables of the loop */
  datatype Loop = Loop(flag: bool, first: byte, next: byte, power: byte, count: nat, ts: seq<Triplet>)

  function Step(l: Loop, ch: Channel): Loop {
    if ch.disabled then l
    else if !l.flag then Loop(true, ch.number, ch.number, ch.power, 1, l.ts)
    else if ch.number == l.next + 1 && ch.power == l.power then l.(next := ch.number, count := l.count + 1)
    else Loop(true, ch.number, ch.number, ch.power, 1, l.ts + [Triplet(l.first, l.count, l.power)])
  }

  function Scan(channels: seq<Channel>): Loop {
    if channels == [] then Loop(false, 0, 0, 0, 0, [])
    else Step(Scan(channels[..|channels| - 1]), channels[|channels| - 1])
  }

  ghost predicate LoopOk(l: Loop, ps: seq<Pair>, i: nat) {
    if l.flag then
      Running(ps, l.ts, l.first, l.count, l.power) && l.next == l.first + l.count - 1 && l.count <= i
    else ps == [] && l.ts == [] && l.count == 0
  }

  lemma StepOk(l: Loop, ps: seq<Pair>, i: nat, ch: Channel)
    requires LoopOk(l, ps, i)
    ensures LoopOk(Step(l, ch), ps + if ch.disabled then [] else [Pair(ch.number, ch.power)], i + 1)
  {
    if ch.disabled {
      assert ps + [] == ps;
    } else if !l.flag {
      var q := Pair(ch.number, ch.power);
      FirstRun(q);
      assert ps + [q] == [q];
    } else {
      NextOk(l, ps, i, ch);
    }
  }

  lemma NextOk(l: Loop, ps: seq<Pair>, i: nat, ch: Channel)
    requires LoopOk(l, ps, i) && l.flag && !ch.disabled
    ensures LoopOk(Step(l, ch), ps + [Pair(ch.number, ch.power)], i + 1)
  {
    if ch.number == l.next + 1 && ch.power == l.power {
      Extend(ps, l.ts, l.first, l.count, l.power);
    } else {
      NewRun(ps, l.ts, l.first, l.count, l.power, Pair(ch.number, ch.power));
    }
  }

  lemma {:induction false} ScanOk(channels: seq<Channel>)
    ensures LoopOk(Scan(channels), Enabled(channels), |channels|)
  {
    if channels != [] {
      var front := channels[..|channels| - 1];
      ScanOk(front);
      StepOk(Scan(front), Enabled(front), |front|, channels[|channels| - 1]);
    }
  }

  /** What the loop knows about its counters at its i-th round */
  lemma ScanBounds(channels: seq<Channel>, i: nat)
    requires i <= |channels|
    ensures
      var l := Scan(channels[..i]);
      l.count <= i && |l.ts| + (if l.flag then 1 else 0) <= Runs(Enabled(channels))
  {
    ScanOk(channels[..i]);
    RunsSoFar(channels, i);
  }

  lemma ScanSnoc(channels: seq<Channel>, i: nat)
    requires i < |channels|
    ensures Scan(channels[..i + 1]) == Step(Scan(channels[..i]), channels[i])
  {
    assert channels[..i + 1][..i] == channels[..i];
  }

  function Written(l: Loop): seq<Triplet> {
    l.ts + if l.flag then [Triplet(l.first, l.count, l.power)] else []
  }

  lemma ScanEnds(channels: seq<Channel>)
    ensures
      var ts := Written(Scan(channels));
      Expand(ts) == Enabled(channels) && NoneMergeable(ts) && |ts| == Runs(Enabled(channels))
  {
    ScanOk(channels);
    var l := Scan(channels);
    if l.flag { Finish(Enabled(channels), l.ts, l.first, l.count, l.power); }
  }

  /** The loop index, one byte wide, after k rounds */
  function IndexAfter(k: nat): byte {
    if k == 0 then 0 else (IndexAfter(k - 1) + 1) % 0x100
  }

  lemma {:induction false} IndexCounts(k: nat)
    requires k <= 255
    ensures IndexAfter(k) == k
  {
    if k > 0 { IndexCounts(k - 1); }
  }

  /** The loop over a band ends exactly when the band has at most 255 channels. */
  lemma LoopEndsIff(n: nat)
    ensures (exists k: nat :: IndexAfter(k) >= n) <==> n <= 255
  {
    if n <= 255 {
      IndexCounts(n);
      assert IndexAfter(n) >= n;
    }
  }

  /** The domain information of `mwifiex_send_domain_info_cmd_fw` for a band over which its loop ends
      (LoopEndsIff): if the array can hold them, the triplets stand for exactly the enabled channels,
      in order, no neighbours could be merged, and there are as few as can be (FewestTriplets). */
  method BuildTriplets(channels: seq<Channel>, triplet: array<Triplet>) returns (fits: bool, noOfTriplet: nat)
    requires |channels| <= 255
    modifies triplet
    ensures fits <==> Runs(Enabled(channels)) <= triplet.Length
    ensures fits ==>
      && noOfTriplet == Runs(Enabled(channels)) <= triplet.Length
      && Expand(triplet[..noOfTriplet]) == Enabled(channels)
      && NoneMergeable(triplet[..noOfTriplet])
      && triplet[noOfTriplet..] == old(triplet[..])[noOfTriplet..]
  {
    fits, noOfTriplet := ScanChannels(channels, triplet);
    ScanEnds(channels);
    assert fits ==> triplet[noOfTriplet..] == old(triplet[..])[noOfTriplet..];
  }

  /** Writes the open run. */
  method WriteTriplet(triplet: array<Triplet>, noOfTriplet: nat, t: Triplet) returns (fits: bool)
    requires noOfTriplet <= triplet.Length
    modifies triplet
    ensures fits <==> noOfTriplet < triplet.Length
    ensures fits ==> triplet[..noOfTriplet + 1] == old(triplet[..noOfTriplet]) + [t]
    ensures fits ==> forall j :: noOfTriplet < j < triplet.Length ==> triplet[j] == old(triplet[j])
  {
    fits := noOfTriplet < triplet.Length;
    if fits { triplet[noOfTriplet] := t; }
  }

  /** The loop; it stops short only where it would write behind the array. */
  method ScanChannels(channels: seq<Channel>, triplet: array<Triplet>) returns (fits: bool, noOfTriplet: nat)
    requires |channels| <= 255
    modifies triplet
    ensures !fits ==> Runs(Enabled(channels)) > triplet.Length
    ensures fits ==> noOfTriplet <= triplet.Length && triplet[..noOfTriplet] == Written(Scan(channels))
    ensures fits ==> forall j :: noOfTriplet <= j < triplet.Length ==> triplet[j] == old(triplet[j])
  {
    var flag := false;
    var firstChan: byte, nextChan: byte, maxPwr: byte, noOfParsedChan: byte := 0, 0, 0, 0;
    noOfTriplet := 0;
    ghost var l := Scan(channels[..0]);
    for i := 0 to |channels|
      invariant l == Scan(channels[..i]) && noOfTriplet <= triplet.Length
      invariant l == Loop(flag, firstChan, nextChan, maxPwr, noOfParsedChan, triplet[..noOfTriplet])
      invariant forall j :: noOfTriplet <= j < triplet.Length ==> triplet[j] == old(triplet[j])
    {
      var ch := channels[i];
      ScanSnoc(channels, i);
      ScanBounds(channels, i + 1);
      l := Step(l, ch);
      if ch.disabled { continue; }
      if !flag {
        flag := true;
        firstChan := ch.number;
        nextChan := firstChan;
        maxPwr := ch.power;
        noOfParsedChan := 1;
        continue;
      }
      if ch.number == nextChan + 1 && ch.power == maxPwr {
        nextChan := nextChan + 1;
        noOfParsedChan := noOfParsedChan + 1;
      } else {
        fits := WriteTriplet(triplet, noOfTriplet, Triplet(firstChan, noOfParsedChan, maxPwr));
        if !fits { return; }
        noOfTriplet := noOfTriplet + 1;
        firstChan := ch.number;
        nextChan := firstChan;
        maxPwr := ch.power;
        noOfParsedChan := 1;
      }
    }
    assert channels[..|channels|] == channels;
    ScanBounds(channels, |channels|);
    fits := true;
    if flag {
      fits := WriteTriplet(triplet, noOfTriplet, Triplet(firstChan, noOfParsedChan, maxPwr));
      if !fits { return; }
      noOfTriplet := noOfTriplet + 1;
    }
  }

  // ---------------------------------------------------------------------- minimality

  lemma RunsSnoc(ps: seq<Pair>, q: Pair)
    ensures Runs(ps + [q]) == if ps == [] then 1 else Runs(ps) + if Follows(ps[|ps| - 1], q) then 0 else 1
  {
    assert (ps + [q])[..|ps|] == ps;
  }

  lemma SpanSnoc(ps: seq<Pair>, first: int, count: nat, power: int)
    requires count > 0
    ensures ps + Span(first, count, power) == ps + Span(first, count - 1, power) + [Pair(first + count - 1, power)]
  {}

  lemma {:induction false} SpanRuns(ps: seq<Pair>, first: int, count: nat, power: int)
    ensures Runs(ps + Span(first, count, power)) <= Runs(ps) + 1
    decreases count
  {
    if count == 0 {
      assert ps + Span(first, 0, power) == ps;
    } else {
      var shorter := ps + Span(first, count - 1, power);
      SpanRuns(ps, first, count - 1, power);
      SpanSnoc(ps, first, count, power);
      RunsSnoc(shorter, Pair(first + count - 1, power));
      if count == 1 {
        assert shorter == ps;
      } else {
        assert shorter[|shorter| - 1] == Pair(first + count - 2, power);
      }
    }
  }

  /** No list of triplets that stands for the same channels is shorter. */
  lemma {:induction false} FewestTriplets(ts: seq<Triplet>)
    ensures Runs(Expand(ts)) <= |ts|
  {
    if ts != [] {
      var front, t := ts[..|ts| - 1], ts[|ts| - 1];
      FewestTriplets(front);
      SpanRuns(Expand(front), t.first, t.count, t.power);
    }
  }
}