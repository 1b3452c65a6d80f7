/**
 The firmware image of the USB download and the checker that walks it: what it accepts, and exactly
 when it ends.
 */
module UsbChecker {
  import opened Wrappers

  /** Memory from the first byte of the image on; the checker and the sender do not look where the
      image ends before they read. */
  type Memory = nat -> byte

  const WRAP: nat := 0x1_0000_0000    // uint32_t
  function Add32(a: nat, b: nat): (sum: nat)
    ensures sum < WRAP
    ensures a + b < WRAP ==> sum == a + b
  {
    (a + b) % WRAP
  }

  const FW_HAS_DATA_TO_RECV: nat := 1
  const FW_HAS_LAST_BLOCK: nat := 4
  const HEADER: nat := 16             // sizeof(struct fwheader)

  function Slice(mem: Memory, at: nat, n: nat): (s: seq<byte>) {
    seq(n, i requires 0 <= i < n => mem(at + i))
  }

  /** The octets from `at` up to `end`, least significant first */
  function LittleEndian(mem: Memory, at: nat, end: nat): (w: nat)
    ensures end <= at + 1 ==> w < 0x100
    ensures end <= at + 2 ==> w < 0x1_0000
    ensures end <= at + 3 ==> w < 0x100_0000
    ensures end <= at + 4 ==> w < WRAP
    decreases end - at
  {
    if at >= end then 0 else mem(at) + 0x100 * LittleEndian(mem, at + 1, end)
  }

  function Word(mem: Memory, at: nat): (w: nat)
    ensures w < WRAP
  {
    LittleEndian(mem, at, at + 4)
  }

  function Kind(mem: Memory, at: nat): nat { Word(mem, at) }

  function DataLength(mem: Memory, at: nat): nat { Word(mem, at + 8) }

  // -------------------------------------------------------------------- the image

  /** Where the k-th block of an image starts if the lengths in the headers are to be believed. */
  function Boundary(mem: Memory, k: nat): nat {
    if k == 0 then 0
    else Boundary(mem, k - 1) + HEADER + DataLength(mem, Boundary(mem, k - 1))
  }

  /** The blocks before the k-th carry data, and they and the k-th start inside the image. */
  ghost predicate Reaches(mem: Memory, totlen: nat, k: nat) {
    && (forall j :: 0 <= j < k ==> Kind(mem, Boundary(mem, j)) == FW_HAS_DATA_TO_RECV)
    && (forall j :: 0 < j <= k ==> Boundary(mem, j) < totlen)
  }

  /** An image of n data blocks and a last block */
  ghost predicate IsImage(mem: Memory, totlen: nat, n: nat) {
    Reaches(mem, totlen, n) && Kind(mem, Boundary(mem, n)) == FW_HAS_LAST_BLOCK
  }

  ghost predicate SomeImage(mem: Memory, totlen: nat) { exists n: nat :: IsImage(mem, totlen, n) }

  /** No data block that the checker steps over reaches past what 32 bits can address. */
  ghost predicate NoWrap(mem: Memory, totlen: nat) {
    forall k: nat :: Reaches(mem, totlen, k) && Kind(mem, Boundary(mem, k)) == FW_HAS_DATA_TO_RECV ==>
      Boundary(mem, k + 1) < WRAP
  }

  /** An image of n data blocks and a last block, all of them within what 32 bits can address */
  ghost predicate ImageFits(mem: Memory, totlen: nat, n: nat) {
    IsImage(mem, totlen, n) && Boundary(mem, n + 1) < WRAP
  }

  lemma {:induction false} BoundaryGrows(mem: Memory, j: nat, k: nat)
    requires j <= k
    ensures Boundary(mem, j) + HEADER * (k - j) <= Boundary(mem, k)
  {
    if j < k { BoundaryGrows(mem, j, k - 1); }
  }

  /** A block that is not followed by another inside the image and is not a last one: no image. */
  lemma NoImage(mem: Memory, totlen: nat, k: nat)
    requires Reaches(mem, totlen, k) && Kind(mem, Boundary(mem, k)) != FW_HAS_LAST_BLOCK
    requires Kind(mem, Boundary(mem, k)) == FW_HAS_DATA_TO_RECV ==> Boundary(mem, k + 1) >= totlen
    ensures !SomeImage(mem, totlen)
  {
    forall n: nat ensures !IsImage(mem, totlen, n) {
      if n > k && Kind(mem, Boundary(mem, k)) == FW_HAS_DATA_TO_RECV { assert !(Boundary(mem, k + 1) < totlen); }
    }
  }

  lemma NoWrapStep(mem: Memory, totlen: nat, k: nat)
    requires NoWrap(mem, totlen) && Reaches(mem, totlen, k)
    requires Kind(mem, Boundary(mem, k)) == FW_HAS_DATA_TO_RECV
    ensures
      var at, blksize := Boundary(mem, k), DataLength(mem, Boundary(mem, k));
      Add32(HEADER, blksize) == HEADER + blksize && Add32(at, HEADER + blksize) == Boundary(mem, k + 1)
  {}

  /** What a block that the checker has reached says about the image. */
  lemma BlockDecides(mem: Memory, totlen: nat, k: nat)
    requires Reaches(mem, totlen, k)
    ensures
      var kind := Kind(mem, Boundary(mem, k));
      if kind == FW_HAS_DATA_TO_RECV && Boundary(mem, k + 1) < totlen then Reaches(mem, totlen, k + 1)
      else SomeImage(mem, totlen) <==> kind == FW_HAS_LAST_BLOCK
  {
    if Kind(mem, Boundary(mem, k)) == FW_HAS_LAST_BLOCK {
      assert IsImage(mem, totlen, k);
    } else if Kind(mem, Boundary(mem, k)) != FW_HAS_DATA_TO_RECV || Boundary(mem, k + 1) >= totlen {
      NoImage(mem, totlen, k);
    }
  }

  // ------------------------------------------------------------------- the checker

  /** How many addresses the kernel has: a pointer wraps at 2^32 or at 2^64. */
  type Space = n: nat | n >= WRAP witness WRAP

  /** The variables of the loop of `check_fwfile_format`; `data` counts from the start of the image. */
  datatype Checker = Checker(data: nat, len: nat, exit: bool, ret: nat)

  const START := Checker(0, 0, false, 1)

  function Advance(space: Space, data: nat, offset: nat): nat {
    if data + offset < space then data + offset else data + offset - space
  }

  function CheckStep(mem: Memory, space: Space, totlen: nat, c: Checker): Checker {
    var bincmd, offset := Kind(mem, c.data), Add32(HEADER, DataLength(mem, c.data));
    if bincmd == FW_HAS_DATA_TO_RECV then
      Checker(Advance(space, c.data, offset), Add32(c.len, offset), Add32(c.len, offset) >= totlen, c.ret)
    else if bincmd == FW_HAS_LAST_BLOCK then c.(exit := true, ret := 0)
    else c.(exit := true)
  }

  /** The variables after k rounds, or after the last one */
  function Walk(mem: Memory, space: Space, totlen: nat, k: nat): Checker {
    if k == 0 then START
    else
      var c := Walk(mem, space, totlen, k - 1);
      if c.exit then c else CheckStep(mem, space, totlen, c)
  }

  ghost predicate Ends(mem: Memory, space: Space, totlen: nat) {
    exists k: nat :: Walk(mem, space, totlen, k).exit
  }

  lemma {:induction false} WalkStays(mem: Memory, space: Space, totlen: nat, j: nat, k: nat)
    requires Walk(mem, space, totlen, j).exit && j <= k
    ensures Walk(mem, space, totlen, k) == Walk(mem, space, totlen, j)
    decreases k
  {
    if j < k { WalkStays(mem, space, totlen, j, k - 1); }
  }

  lemma WalkNext(mem: Memory, space: Space, totlen: nat, j: nat, k: nat, c: Checker)
    requires k == j + 1 && c == Walk(mem, space, totlen, j) && !c.exit
    ensures Walk(mem, space, totlen, k) == CheckStep(mem, space, totlen, c)
  {}

  /** What the checker knows after k rounds if no length wraps */
  ghost predicate Decided(mem: Memory, totlen: nat, k: nat, c: Checker) {
    if c.exit then c.ret == if SomeImage(mem, totlen) then 0 else 1
    else c == Checker(Boundary(mem, k), Boundary(mem, k), false, 1) && Reaches(mem, totlen, k)
  }

  lemma StepDecides(mem: Memory, space: Space, totlen: nat, j: nat, k: nat, c: Checker)
    requires totlen < WRAP && NoWrap(mem, totlen) && k == j + 1 && Decided(mem, totlen, j, c) && !c.exit
    ensures Decided(mem, totlen, k, CheckStep(mem, space, totlen, c))
  {
    BlockDecides(mem, totlen, j);
    if Kind(mem, c.data) == FW_HAS_DATA_TO_RECV { NoWrapStep(mem, totlen, j); }
  }

  /** Unless a length wraps, the walk visits the boundaries of the image and gives the right verdict. */
  lemma {:induction false} WalkDecides(mem: Memory, space: Space, totlen: nat, k: nat)
    requires totlen < WRAP && NoWrap(mem, totlen)
    ensures Decided(mem, totlen, k, Walk(mem, space, totlen, k))
  {
    if k > 0 {
      WalkDecides(mem, space, totlen, k - 1);
      WalkDecidesNext(mem, space, totlen, k - 1, k, Walk(mem, space, totlen, k - 1));
    }
  }

  lemma WalkDecidesNext(mem: Memory, space: Space, totlen: nat, j: nat, k: nat, c: Checker)
    requires totlen < WRAP && NoWrap(mem, totlen) && k == j + 1
    requires c == Walk(mem, space, totlen, j) && Decided(mem, totlen, j, c)
    ensures Decided(mem, totlen, k, Walk(mem, space, totlen, k))
  {
    if !c.exit {
      WalkNext(mem, space, totlen, j, k, c);
      StepDecides(mem, space, totlen, j, k, c);
    }
  }

  /** Unless a length wraps, the checker ends. */
  lemma NoWrapEnds(mem: Memory, space: Space, totlen: nat)
    requires totlen < WRAP && NoWrap(mem, totlen)
    ensures Ends(mem, space, totlen)
  {
    WalkDecides(mem, space, totlen, totlen + 1);
    BoundaryGrows(mem, 0, totlen + 1);
  }

  // ------------------------------------------------------------- exactly when it ends

  /** No round that is not the last finds the variables as an earlier one did. */
  ghost predicate NeverReturns(mem: Memory, space: Space, totlen: nat) {
    forall i: nat, j: nat :: i < j && !Walk(mem, space, totlen, j).exit ==>
      Walk(mem, space, totlen, i) != Walk(mem, space, totlen, j)
  }

  /** The variables of a round that is not the last are where they can be. */
  lemma {:induction false} WalkInRange(mem: Memory, space: Space, totlen: nat, k: nat)
    ensures var c := Walk(mem, space, totlen, k);
      c.data < space && c.len < WRAP && (!c.exit ==> c.ret == 1)
  {
    if k > 0 { WalkInRange(mem, space, totlen, k - 1); }
  }

  lemma {:induction false} WalkInside(mem: Memory, space: Space, totlen: nat, k: nat)
    requires totlen > 0 && !Walk(mem, space, totlen, k).exit
    ensures Walk(mem, space, totlen, k).len < totlen
  {
    if k > 0 { WalkInside(mem, space, totlen, k - 1); }
  }

  lemma {:induction false} EarlierNotEnded(mem: Memory, space: Space, totlen: nat, j: nat, k: nat)
    requires j <= k && !Walk(mem, space, totlen, k).exit
    ensures !Walk(mem, space, totlen, j).exit
  {
    if Walk(mem, space, totlen, j).exit { WalkStays(mem, space, totlen, j, k); }
  }

  lemma SameNext(mem: Memory, space: Space, totlen: nat, i: nat, j: nat, i': nat, j': nat)
    requires i' == i + 1 && j' == j + 1
    requires Walk(mem, space, totlen, i) == Walk(mem, space, totlen, j)
    ensures Walk(mem, space, totlen, i') == Walk(mem, space, totlen, j')
  {
    var c := Walk(mem, space, totlen, i);
    if c.exit {
      WalkStays(mem, space, totlen, i, i');
      WalkStays(mem, space, totlen, j, j');
    } else {
      WalkNext(mem, space, totlen, i, i', c);
      WalkNext(mem, space, totlen, j, j', c);
    }
  }

  /** Two rounds that find the same variables are followed by the same rounds. */
  lemma {:induction false} Parallel(mem: Memory, space: Space, totlen: nat, i: nat, j: nat, p: nat, q: nat)
    requires Walk(mem, space, totlen, i) == Walk(mem, space, totlen, j) && i <= p && p - i == q - j
    ensures Walk(mem, space, totlen, p) == Walk(mem, space, totlen, q)
    decreases p - i
  {
    if i < p {
      var i', j' := i + 1, j + 1;
      SameNext(mem, space, totlen, i, j, i', j');
      Parallel(mem, space, totlen, i', j', p, q);
    }
  }

  lemma {:induction false} ReturnNeverEnds(mem: Memory, space: Space, totlen: nat, i: nat, j: nat, k: nat)
    requires i < j && !Walk(mem, space, totlen, j).exit
    requires Walk(mem, space, totlen, i) == Walk(mem, space, totlen, j)
    ensures !Walk(mem, space, totlen, k).exit
    decreases k
  {
    if k <= j {
      EarlierNotEnded(mem, space, totlen, k, j);
    } else {
      var earlier := k - (j - i);
      ReturnNeverEnds(mem, space, totlen, i, j, earlier);
      Parallel(mem, space, totlen, i, j, earlier, k);
    }
  }

  /** More numbers than there are below n: one of them comes twice. */
  lemma {:induction false} Repeated(s: seq<nat>, n: nat) returns (i: nat, j: nat)
    requires |s| > n && forall k :: 0 <= k < |s| ==> s[k] < n
    ensures i < j < |s| && s[i] == s[j]
    decreases n
  {
    assert s[0] < n;
    if p: nat :| p < |s| && s[p] == n - 1 {
      if q: nat :| q < |s| && q != p && s[q] == n - 1 {
        i, j := if p < q then p else q, if p < q then q else p;
      } else {
        var rest := s[..p] + s[p + 1..];
        i, j := Repeated(rest, n - 1);
        assert forall k :: 0 <= k < |rest| ==> rest[k] == s[if k < p then k else k + 1];
        i, j := if i < p then i else i + 1, if j < p then j else j + 1;
      }
    } else {
      i, j := Repeated(s, n - 1);
    }
  }

  /** The variables as one number */
  function Code(c: Checker): nat { c.data * WRAP + c.len }

  lemma CodeInjective(c: Checker, d: Checker)
    requires c.len < WRAP && d.len < WRAP && Code(c) == Code(d)
    ensures c.data == d.data && c.len == d.len
  {}

  /** There are only so many values of the variables, so a loop that goes on for long returns. */
  lemma LongWalkReturns(mem: Memory, space: Space, totlen: nat, k: nat) returns (i: nat, j: nat)
    requires k >= space * WRAP && !Walk(mem, space, totlen, k).exit
    ensures i < j <= k && Walk(mem, space, totlen, i) == Walk(mem, space, totlen, j)
  {
    var codes := seq(k + 1, n requires 0 <= n <= k => Code(Walk(mem, space, totlen, n)));
    forall n | 0 <= n <= k ensures codes[n] < space * WRAP { WalkInRange(mem, space, totlen, n); }
    i, j := Repeated(codes, space * WRAP);
    SameCode(mem, space, totlen, i, j, k);
  }

  lemma SameCode(mem: Memory, space: Space, totlen: nat, i: nat, j: nat, k: nat)
    requires i <= k && j <= k && !Walk(mem, space, totlen, k).exit
    requires Code(Walk(mem, space, totlen, i)) == Code(Walk(mem, space, totlen, j))
    ensures Walk(mem, space, totlen, i) == Walk(mem, space, totlen, j)
  {
    EarlierNotEnded(mem, space, totlen, i, k);
    EarlierNotEnded(mem, space, totlen, j, k);
    WalkInRange(mem, space, totlen, i);
    WalkInRange(mem, space, totlen, j);
    CodeInjective(Walk(mem, space, totlen, i), Walk(mem, space, totlen, j));
  }

  /** The loop of `check_fwfile_format` ends, on whatever image, if and only if it never comes back to
      where it was. */
  lemma EndsIff(mem: Memory, space: Space, totlen: nat)
    ensures Ends(mem, space, totlen) <==> NeverReturns(mem, space, totlen)
  {
    if NeverReturns(mem, space, totlen) {
      if !Walk(mem, space, totlen, space * WRAP).exit {
        var i, j := LongWalkReturns(mem, space, totlen, space * WRAP);
        EarlierNotEnded(mem, space, totlen, j, space * WRAP);
      }
    } else {
      var i: nat, j: nat :| i < j && !Walk(mem, space, totlen, j).exit
                            && Walk(mem, space, totlen, i) == Walk(mem, space, totlen, j);
      forall k: nat ensures !Walk(mem, space, totlen, k).exit { ReturnNeverEnds(mem, space, totlen, i, j, k); }
    }
  }

  /** `check_fwfile_format`, on exactly the inputs on which it ends. Unless a length wraps, its result
      is 0 exactly for images. */
  method CheckFwfileFormat(mem: Memory, space: Space, totlen: nat) returns (ret: nat)
    requires totlen < WRAP && NeverReturns(mem, space, totlen)
    ensures exists k: nat :: Walk(mem, space, totlen, k).exit && ret == Walk(mem, space, totlen, k).ret
    ensures NoWrap(mem, totlen) ==> ret == if SomeImage(mem, totlen) then 0 else 1
  {
    var exit, data: nat, len: nat := false, 0, 0;
    ghost var k: nat, rounds := 0, EndingRound(mem, space, totlen);
    ret := 1;
    while !exit
      invariant Checker(data, len, exit, ret) == Walk(mem, space, totlen, k) && k <= rounds
      decreases rounds - k
    {
      if k == rounds { assert false; }
      var bincmd, blksize := Kind(mem, data), DataLength(mem, data);
      if bincmd == FW_HAS_DATA_TO_RECV {
        var offset := Add32(HEADER, blksize);
        data := Advance(space, data, offset);
        len := Add32(len, offset);
        if len >= totlen { exit := true; }
      } else if bincmd == FW_HAS_LAST_BLOCK {
        exit := true;
        ret := 0;
      } else {
        exit := true;
      }
      k := k + 1;
    }
    if NoWrap(mem, totlen) { WalkDecides(mem, space, totlen, k); }
  }

  ghost function EndingRound(mem: Memory, space: Space, totlen: nat): (k: nat)
    requires NeverReturns(mem, space, totlen)
    ensures Walk(mem, space, totlen, k).exit
  {
    EndsIff(mem, space, totlen);
    var k: nat :| Walk(mem, space, totlen, k).exit; k
  }

  // -------------------------------------------------------- standing still, going around

  /** Where a length makes the checker move by nothing */
  predicate Stuck(mem: Memory, c: Checker) {
    Kind(mem, c.data) == FW_HAS_DATA_TO_RECV && DataLength(mem, c.data) == WRAP - HEADER
  }

  lemma OffsetIsZero(blksize: nat)
    requires blksize < WRAP
    ensures Add32(HEADER, blksize) == 0 <==> blksize == WRAP - HEADER
  {}

  /** One round leaves everything as it is exactly when it is stuck. */
  lemma StuckIff(mem: Memory, space: Space, totlen: nat, c: Checker)
    requires !c.exit && c.data < space && c.len < totlen && c.len < WRAP
    ensures CheckStep(mem, space, totlen, c) == c <==> Stuck(mem, c)
  {
    OffsetIsZero(DataLength(mem, c.data));
  }

  lemma {:induction false} StuckStays(mem: Memory, space: Space, totlen: nat, k: nat, i: nat, c: Checker)
    requires k <= i && c == Walk(mem, space, totlen, k) && !c.exit && CheckStep(mem, space, totlen, c) == c
    ensures Walk(mem, space, totlen, i) == c
    decreases i
  {
    if k < i {
      StuckStays(mem, space, totlen, k, i - 1, c);
      WalkNext(mem, space, totlen, i - 1, i, c);
    }
  }

  /** The checker stands still, now and in every later round, exactly when it is at a data header of
      length 2^32 - 16. */
  lemma WrappedLengthStallsIff(mem: Memory, space: Space, totlen: nat, k: nat)
    requires totlen > 0 && !Walk(mem, space, totlen, k).exit
    ensures (forall i: nat :: k <= i ==> Walk(mem, space, totlen, i) == Walk(mem, space, totlen, k)) <==>
      Stuck(mem, Walk(mem, space, totlen, k))
    ensures Stuck(mem, Walk(mem, space, totlen, k)) ==> !Ends(mem, space, totlen)
  {
    var c := Walk(mem, space, totlen, k);
    WalkInRange(mem, space, totlen, k);
    WalkInside(mem, space, totlen, k);
    StuckIff(mem, space, totlen, c);
    WalkNext(mem, space, totlen, k, k + 1, c);
    if Stuck(mem, c) {
      forall i: nat | k <= i ensures Walk(mem, space, totlen, i) == c { StuckStays(mem, space, totlen, k, i, c); }
      forall i: nat ensures !Walk(mem, space, totlen, i).exit {
        ReturnNeverEnds(mem, space, totlen, k, k + 1, i);
      }
    } else {
      assert Walk(mem, space, totlen, k + 1) != c;
    }
  }

  /** Every header that the checker reads lies in the file. */
  ghost predicate StaysInFile(mem: Memory, space: Space, totlen: nat) {
    forall k: nat :: !Walk(mem, space, totlen, k).exit ==> Walk(mem, space, totlen, k).data + HEADER <= totlen
  }

  ghost predicate NeverStuck(mem: Memory, space: Space, totlen: nat) {
    forall k: nat :: !Walk(mem, space, totlen, k).exit ==> !Stuck(mem, Walk(mem, space, totlen, k))
  }

  /** In the file, and with addresses to spare, every round moves on. */
  lemma {:induction false} MovesOn(mem: Memory, space: Space, totlen: nat, k: nat)
    requires totlen < WRAP && 2 * WRAP <= space
    requires StaysInFile(mem, space, totlen) && NeverStuck(mem, space, totlen)
    requires !Walk(mem, space, totlen, k).exit
    ensures Walk(mem, space, totlen, k).data >= k
  {
    if k > 0 {
      var c := Walk(mem, space, totlen, k - 1);
      MovesOn(mem, space, totlen, k - 1);
      assert c.data + HEADER <= totlen && !Stuck(mem, c);
      OffsetIsZero(DataLength(mem, c.data));
      WalkNext(mem, space, totlen, k - 1, k, c);
    }
  }

  /** On a kernel with 64-bit addresses, and as long as the checker reads headers in the file, it ends
      if and only if it never gets to a data header of length 2^32 - 16, and then before it has made
      a round for every byte of the file. */
  lemma EndsInFileIff(mem: Memory, space: Space, totlen: nat)
    requires totlen < WRAP && 2 * WRAP <= space && StaysInFile(mem, space, totlen)
    ensures Ends(mem, space, totlen) <==> NeverStuck(mem, space, totlen)
    ensures Ends(mem, space, totlen) <==> Walk(mem, space, totlen, totlen).exit
  {
    if NeverStuck(mem, space, totlen) {
      if !Walk(mem, space, totlen, totlen).exit { MovesOn(mem, space, totlen, totlen); }
    } else {
      var k: nat :| !Walk(mem, space, totlen, k).exit && Stuck(mem, Walk(mem, space, totlen, k));
      WrappedLengthStallsIff(mem, space, totlen, k);
    }
  }

  lemma PointerFollowsLength(mem: Memory, totlen: nat, c: Checker)
    requires c.data == c.len < WRAP
    ensures CheckStep(mem, WRAP, totlen, c).data == CheckStep(mem, WRAP, totlen, c).len
  {}

  lemma {:induction false} PointerIsLength(mem: Memory, totlen: nat, k: nat)
    ensures Walk(mem, WRAP, totlen, k).data == Walk(mem, WRAP, totlen, k).len
  {
    if k > 0 {
      var c := Walk(mem, WRAP, totlen, k - 1);
      PointerIsLength(mem, totlen, k - 1);
      WalkInRange(mem, WRAP, totlen, k - 1);
      PointerFollowsLength(mem, totlen, c);
    }
  }

  lemma ShortWalkReturns(mem: Memory, totlen: nat) returns (i: nat, j: nat)
    requires totlen > 0 && !Walk(mem, WRAP, totlen, totlen).exit
    ensures i < j <= totlen && Walk(mem, WRAP, totlen, i) == Walk(mem, WRAP, totlen, j)
  {
    var lens := seq(totlen + 1, n requires 0 <= n <= totlen => Walk(mem, WRAP, totlen, n).len);
    forall n | 0 <= n <= totlen ensures lens[n] < totlen {
      EarlierNotEnded(mem, WRAP, totlen, n, totlen);
      WalkInside(mem, WRAP, totlen, n);
    }
    i, j := Repeated(lens, totlen);
    PointerIsLength(mem, totlen, i);
    PointerIsLength(mem, totlen, j);
    SameCode(mem, WRAP, totlen, i, j, totlen);
  }

  /** On a kernel with 32-bit addresses the checker ends, on whatever image, if and only if it ends
      within as many rounds as the file has bytes. */
  lemma EndsOn32BitIff(mem: Memory, totlen: nat)
    requires totlen > 0
    ensures Ends(mem, WRAP, totlen) <==> Walk(mem, WRAP, totlen, totlen).exit
  {
    if !Walk(mem, WRAP, totlen, totlen).exit {
      var i, j := ShortWalkReturns(mem, totlen);
      EarlierNotEnded(mem, WRAP, totlen, j, totlen);
      forall k: nat ensures !Walk(mem, WRAP, totlen, k).exit { ReturnNeverEnds(mem, WRAP, totlen, i, j, k); }
    }
  }

  // ------------------------------------------------------------------ images that hang it

  /** A data header of length 2^32 - 16 */
  function StuckImage(at: nat): byte {
    if at == 0 then 1 else if at == 8 then 0xf0 else if 9 <= at < 12 then 0xff else 0
  }

  lemma WordOf(mem: Memory, at: nat)
    ensures Word(mem, at) == mem(at) + 0x100 * (mem(at + 1) + 0x100 * (mem(at + 2) + 0x100 * mem(at + 3)))
  {
    assert LittleEndian(mem, at + 4, at + 4) == 0;
    assert LittleEndian(mem, at + 3, at + 4) == mem(at + 3);
    assert LittleEndian(mem, at + 2, at + 4) == mem(at + 2) + 0x100 * LittleEndian(mem, at + 3, at + 4);
    assert LittleEndian(mem, at + 1, at + 4) == mem(at + 1) + 0x100 * LittleEndian(mem, at + 2, at + 4);
  }

  /** On this image the checker never ends, and reads nothing but its first header. */
  lemma StuckImageHangs(space: Space, totlen: nat)
    requires HEADER <= totlen
    ensures StaysInFile(StuckImage, space, totlen) && !Ends(StuckImage, space, totlen)
  {
    WordOf(StuckImage, 0);
    WordOf(StuckImage, 8);
    assert Walk(StuckImage, space, totlen, 0) == START;
    WrappedLengthStallsIff(StuckImage, space, totlen, 0);
    forall k: nat ensures Walk(StuckImage, space, totlen, k) == START {
      assert Walk(StuckImage, space, totlen, k) == Walk(StuckImage, space, totlen, 0);
    }
  }

  /** An empty data header, and one of length 2^32 - 32 behind it */
  function LoopImage(at: nat): byte {
    if at == 0 || at == 16 then 1 else if at == 24 then 0xe0 else if 25 <= at < 28 then 0xff else 0
  }

  lemma LoopImageHeaders()
    ensures Kind(LoopImage, 0) == FW_HAS_DATA_TO_RECV && DataLength(LoopImage, 0) == 0
    ensures Kind(LoopImage, 16) == FW_HAS_DATA_TO_RECV && DataLength(LoopImage, 16) == WRAP - 32
  {
    WordOf(LoopImage, 0);
    WordOf(LoopImage, 8);
    WordOf(LoopImage, 16);
    WordOf(LoopImage, 24);
  }

  lemma {:induction false} LoopImageWalk(totlen: nat, k: nat)
    requires 32 <= totlen
    ensures Walk(LoopImage, WRAP, totlen, k) == if k % 2 == 0 then START else Checker(16, 16, false, 1)
  {
    LoopImageHeaders();
    if k > 0 { LoopImageWalk(totlen, k - 1); }
  }

  /** On this image, with 32-bit addresses, the checker goes around two headers in the file for ever
      and is never stuck at one. */
  lemma LoopImageHangs(totlen: nat)
    requires 32 <= totlen
    ensures StaysInFile(LoopImage, WRAP, totlen) && NeverStuck(LoopImage, WRAP, totlen)
    ensures !Ends(LoopImage, WRAP, totlen)
  {
    LoopImageHeaders();
    forall k: nat
      ensures var c := Walk(LoopImage, WRAP, totlen, k);
        !c.exit && c.data + HEADER <= totlen && !Stuck(LoopImage, c)
    {
      LoopImageWalk(totlen, k);
    }
  }
}
