/** Configured ids: merging the blocks of a paged table, and reading a bitmask. */
module Configured {
  import opened Prelude
  import opened Paging
  import opened PagingTheorems

  // ---------------------------------------------------------------- sorted, without duplicates

  predicate Ascending(s: seq<int>) { forall i, j :: 0 <= i < j < |s| ==> s[i] < s[j] }

  function Elements(s: seq<int>): set<int> { set x | x in s }

  function Insert(s: seq<int>, x: int): seq<int> {
    if s == [] || x < s[0] then [x] + s
    else if x == s[0] then s
    else [s[0]] + Insert(s[1..], x)
  }

  function SortedSet(items: seq<int>): seq<int> {
    if items == [] then [] else Insert(SortedSet(items[..|items| - 1]), items[|items| - 1])
  }

  lemma ElementsConcat(a: seq<int>, b: seq<int>)
    ensures Elements(a + b) == Elements(a) + Elements(b)
  {}

  lemma InElements(s: seq<int>, i: nat)
    requires i < |s|
    ensures s[i] in Elements(s)
  {}

  lemma {:induction false} InsertElements(s: seq<int>, x: int)
    ensures Elements(Insert(s, x)) == Elements(s) + {x}
  {
    if s == [] || x < s[0] {
      ElementsConcat([x], s);
    } else if x == s[0] {
      InElements(s, 0);
    } else {
      InsertElements(s[1..], x);
      assert s == [s[0]] + s[1..];
      ElementsConcat([s[0]], s[1..]);
      ElementsConcat([s[0]], Insert(s[1..], x));
    }
  }

  lemma {:induction false} InsertKeeps(s: seq<int>, x: int)
    requires Ascending(s)
    ensures Ascending(Insert(s, x)) && Elements(Insert(s, x)) == Elements(s) + {x}
  {
    InsertElements(s, x);
    if s != [] && x > s[0] {
      InsertKeeps(s[1..], x);
      var r := Insert(s[1..], x);
      forall i | 0 <= i < |r| ensures s[0] < r[i] {
        InElements(r, i);
        assert r[i] in Elements(s[1..]) + {x};
      }
    }
  }

  lemma {:induction false} SortedSetIs(items: seq<int>)
    ensures Ascending(SortedSet(items)) && Elements(SortedSet(items)) == Elements(items)
  {
    if items != [] {
      SortedSetIs(items[..|items| - 1]);
      InsertKeeps(SortedSet(items[..|items| - 1]), items[|items| - 1]);
      assert items == items[..|items| - 1] + [items[|items| - 1]];
      ElementsConcat(items[..|items| - 1], [items[|items| - 1]]);
    }
  }

  /** An ascending list is settled by its elements. */
  lemma {:induction false} AscendingUnique(a: seq<int>, b: seq<int>)
    requires Ascending(a) && Ascending(b) && Elements(a) == Elements(b)
    ensures a == b
    decreases |a|
  {
    if a == [] {
      if b != [] { InElements(b, 0); }
    } else {
      InElements(a, 0);
      assert a[0] in b;
      InElements(b, 0);
      assert b[0] in a;
      assert a[0] == b[0];
      TailElements(a);
      TailElements(b);
      AscendingUnique(a[1..], b[1..]);
      assert a == [a[0]] + a[1..] && b == [b[0]] + b[1..];
    }
  }

  lemma TailElements(s: seq<int>)
    requires s != [] && Ascending(s)
    ensures Elements(s[1..]) == Elements(s) - {s[0]}
  {}

  method DedupeSorted(items: seq<int>) returns (r: seq<int>)
    ensures r == SortedSet(items)
  {
    r := [];
    for i := 0 to |items|
      invariant r == SortedSet(items[..i])
    {
      assert items[..i + 1][..i] == items[..i];
      r := Insert(r, items[i]);
    }
    assert items[..|items|] == items;
  }

  // ---------------------------------------------------------------- merging blocks

  /** The size a block states, or the table's size split evenly, rounded up, over the blocks. */
  function BlockSize(p: Payload, tableElements: Option<int>, blockCount: int): Option<int>
    requires blockCount >= 1
  {
    if p.size.Some? && p.size.value > 0 then p.size
    else if tableElements.Some? && tableElements.value > 0
    then Some((tableElements.value + blockCount - 1) / blockCount)
    else None
  }

  /** A stated positive size wins; otherwise the table's elements fill the blocks of the size, the
      last one at least in part; otherwise there is none. */
  lemma BlockSizeIs(p: Payload, tableElements: Option<int>, n: int)
    requires n >= 1
    ensures var w := BlockSize(p, tableElements, n);
      if p.size.Some? && p.size.value > 0 then w == p.size
      else if tableElements.Some? && tableElements.value > 0 then
        w.Some? && w.value >= 1 && (w.value - 1) * n < tableElements.value <= w.value * n
      else w == None
  {
    if !(p.size.Some? && p.size.value > 0) && tableElements.Some? && tableElements.value > 0 {
      RoundedUp(tableElements.value, n, (tableElements.value + n - 1) / n);
    }
  }

  lemma RoundedUp(t: int, n: int, w: int)
    requires t > 0 && n >= 1 && w == (t + n - 1) / n
    ensures w >= 1 && (w - 1) * n < t <= w * n
  {
    var r := (t + n - 1) % n;
    assert t + n - 1 == n * w + r;
    assert n * w == w * n && (w - 1) * n == w * n - n;
    if w <= 0 { NotPositive(n, w); }
  }

  lemma NotPositive(n: int, w: int)
    requires n >= 1 && w <= 0
    ensures n * w <= 0
  {}

  function Max(s: seq<int>): int
    requires s != []
  {
    if |s| == 1 then s[0] else if s[0] > Max(s[1..]) then s[0] else Max(s[1..])
  }

  lemma {:induction false} MaxIs(s: seq<int>)
    requires s != []
    ensures Max(s) in s && forall x :: x in s ==> x <= Max(s)
  {
    assert s == [s[0]] + s[1..];
    if |s| > 1 { MaxIs(s[1..]); }
  }

  function Shifted(ids: seq<int>, shift: int): seq<int> {
    if ids == [] then [] else [ids[0] + shift] + Shifted(ids[1..], shift)
  }

  /** Ids no larger than the block size are taken for block-local and moved up. */
  function Offset(ids: seq<int>, blockId: int, size: Option<int>): seq<int> {
    if ids == [] || blockId <= 1 then ids
    else if size.None? || size.value <= 0 then ids
    else if Max(ids) > size.value then ids
    else Shifted(ids, (blockId - 1) * size.value)
  }

  function MergedIds(blocks: seq<Block>, tableElements: Option<int>, blockCount: int): seq<int>
    requires blockCount >= 1
  {
    if blocks == [] then []
    else
      var b := blocks[|blocks| - 1];
      MergedIds(blocks[..|blocks| - 1], tableElements, blockCount)
      + Offset(SortedSet(b.payload.ids), b.blockId, BlockSize(b.payload, tableElements, blockCount))
  }

  method Merge(blocks: seq<Block>, tableElements: Option<int>, blockCount: int) returns (merged: seq<int>)
    requires blockCount >= 1
    ensures merged == SortedSet(MergedIds(blocks, tableElements, blockCount))
  {
    var ids := [];
    for i := 0 to |blocks|
      invariant ids == MergedIds(blocks[..i], tableElements, blockCount)
    {
      assert blocks[..i + 1][..i] == blocks[..i];
      var own := DedupeSorted(blocks[i].payload.ids);
      var size := BlockSize(blocks[i].payload, tableElements, blockCount);
      ids := ids + Offset(own, blocks[i].blockId, size);
    }
    assert blocks[..|blocks|] == blocks;
    merged := DedupeSorted(ids);
  }

  /** The ids of a table that fall into block `b` when blocks hold `size` ids each. */
  function Slice(truth: set<int>, b: int, size: int): set<int> {
    set x | x in truth && (b - 1) * size < x <= b * size
  }

  function Local(truth: set<int>, b: int, size: int): set<int> {
    Image(Slice(truth, b, size), -((b - 1) * size))
  }

  /** A block tells the truth about its part of the table, in absolute or in local numbers. */
  predicate Reports(p: Payload, truth: set<int>, b: int, size: int) {
    Elements(p.ids) == Slice(truth, b, size) || Elements(p.ids) == Local(truth, b, size)
  }

  lemma {:induction false} ShiftedIs(ids: seq<int>, shift: int)
    ensures Elements(Shifted(ids, shift)) == Image(Elements(ids), shift)
  {
    if ids != [] {
      ShiftedIs(ids[1..], shift);
      assert ids == [ids[0]] + ids[1..];
      ElementsConcat([ids[0]], ids[1..]);
      ElementsConcat([ids[0] + shift], Shifted(ids[1..], shift));
      ImageOfUnion(ids[0], Elements(ids[1..]), shift);
    }
  }

  function Image(s: set<int>, shift: int): set<int> { set x | x in s :: x + shift }

  lemma ImageOfUnion(a: int, s: set<int>, shift: int)
    ensures Image({a} + s, shift) == {a + shift} + Image(s, shift)
  {}

  lemma LocalShiftsBack(truth: set<int>, b: int, size: int)
    ensures Image(Local(truth, b, size), (b - 1) * size) == Slice(truth, b, size)
  {
    var shift := (b - 1) * size;
    forall y | y in Slice(truth, b, size)
      ensures y in Image(Local(truth, b, size), shift)
    {
      assert y - shift in Local(truth, b, size);
      assert y == (y - shift) + shift;
    }
  }

  /** How far the offset rule moves the ids of a block. */
  function Moved(ids: seq<int>, b: int, w: Option<int>): int {
    if ids == [] || b <= 1 || w.None? || w.value <= 0 || Max(ids) > w.value then 0 else (b - 1) * w.value
  }

  /** How far the ids of a block have to be moved: not at all if they are absolute. */
  function Owed(ids: seq<int>, truth: set<int>, b: int, size: int): int {
    if Elements(ids) == Slice(truth, b, size) then 0 else (b - 1) * size
  }

  lemma ImageNone(s: set<int>)
    ensures Image(s, 0) == s
  {
    forall x ensures x in Image(s, 0) <==> x in s {
      if x in s { assert x + 0 in Image(s, 0); }
    }
  }

  lemma ShiftedNone(ids: seq<int>)
    ensures Elements(ids) == Image(Elements(ids), 0)
  {
    ImageNone(Elements(ids));
  }

  lemma OffsetMoves(ids: seq<int>, b: int, w: Option<int>)
    ensures Elements(Offset(ids, b, w)) == Image(Elements(ids), Moved(ids, b, w))
  {
    if Offset(ids, b, w) == ids && Moved(ids, b, w) == 0 {
      ShiftedNone(ids);
    } else {
      ShiftedIs(ids, Moved(ids, b, w));
    }
  }

  lemma SliceOwed(ids: seq<int>, truth: set<int>, b: int, size: int)
    requires Elements(ids) == Slice(truth, b, size) || Elements(ids) == Local(truth, b, size)
    ensures Slice(truth, b, size) == Image(Elements(ids), Owed(ids, truth, b, size))
  {
    ShiftedNone(ids);
    LocalShiftsBack(truth, b, size);
  }

  /** When the offset rule guesses right with the size `w` it computed: on the first block and on
      an empty one always, on an absolute report if its largest id is above `w` or there is no
      `w`, on a local report if `w` is the true size. */
  predicate GuessesRight(ids: seq<int>, truth: set<int>, b: int, size: int, w: Option<int>) {
    || b == 1 || ids == []
    || (Elements(ids) == Slice(truth, b, size) && (w.None? || Max(ids) > w.value))
    || (Elements(ids) == Local(truth, b, size) && w == Some(size))
  }

  /** Below the true size the rule moves too little, above it too much. */
  lemma Drift(ids: seq<int>, truth: set<int>, b: int, size: int, w: Option<int>)
    requires b >= 2 && size >= 1 && ids != [] && (w.Some? ==> w.value >= 1)
    requires Elements(ids) == Slice(truth, b, size) || Elements(ids) == Local(truth, b, size)
    ensures var d := Moved(ids, b, w) - Owed(ids, truth, b, size);
      && (d == 0 <==> GuessesRight(ids, truth, b, size, w))
      && (w.None? || w.value <= size ==> d <= 0)
      && (w.Some? && w.value >= size ==> d >= 0)
  {
    MaxIs(ids);
    var top := Max(ids);
    assert top in Elements(ids);
    BlockBounds(b, size);
    if Elements(ids) == Slice(truth, b, size) {
      assert top > size;
      if w.Some? { Products(b, w.value, size); }
      assert Elements(ids) != Local(truth, b, size) by {
        if top in Local(truth, b, size) { LocalBound(truth, b, size, top); }
      }
    } else {
      LocalBound(truth, b, size, top);
      if w.Some? { Products(b, w.value, size); }
    }
  }

  lemma Products(b: int, w: int, size: int)
    requires b >= 2 && w >= 1 && size >= 1
    ensures (b - 1) * w >= 1 && (b - 1) * size >= 1
    ensures w < size ==> (b - 1) * w < (b - 1) * size
    ensures w > size ==> (b - 1) * w > (b - 1) * size
  {
    Steps(b - 1, w, size);
    Steps(b - 1, size, w);
  }

  lemma Steps(a: int, x: int, y: int)
    requires a >= 1 && x >= 1
    ensures a * x >= 1
    ensures x < y ==> a * x < a * y
  {}

  /** A block comes out absolute, for any computed size, exactly when the rule guesses right. */
  lemma OffsetRightIff(ids: seq<int>, truth: set<int>, b: int, size: int, w: Option<int>)
    requires b >= 1 && size >= 1 && (w.Some? ==> w.value >= 1)
    requires Elements(ids) == Slice(truth, b, size) || Elements(ids) == Local(truth, b, size)
    ensures Elements(Offset(ids, b, w)) == Slice(truth, b, size) <==> GuessesRight(ids, truth, b, size, w)
  {
    if b == 1 {
      LocalOne(truth, size);
    } else if ids == [] {
      EmptySlice(truth, b, size);
    } else {
      var moved, owed := Moved(ids, b, w), Owed(ids, truth, b, size);
      OffsetMoves(ids, b, w);
      SliceOwed(ids, truth, b, size);
      Drift(ids, truth, b, size, w);
      if Elements(Offset(ids, b, w)) == Slice(truth, b, size) {
        SameImage(ids, moved, owed);
      }
    }
  }

  lemma SameImage(ids: seq<int>, a: int, b: int)
    requires ids != [] && Image(Elements(ids), a) == Image(Elements(ids), b)
    ensures a == b
  {
    MaxIs(ids);
    var top := Max(ids);
    assert top in Elements(ids);
    assert top + a in Image(Elements(ids), a) && top + b in Image(Elements(ids), b);
  }

  /** The offset rule guesses right when it knows the size: either way of reporting comes out
      absolute. */
  lemma OffsetRight(ids: seq<int>, truth: set<int>, b: int, size: int)
    requires b >= 1 && size >= 1
    requires Elements(ids) == Slice(truth, b, size) || Elements(ids) == Local(truth, b, size)
    ensures Elements(Offset(ids, b, Some(size))) == Slice(truth, b, size)
  {
    OffsetRightIff(ids, truth, b, size, Some(size));
    if b >= 2 && ids != [] {
      MaxIs(ids);
      assert Max(ids) in Elements(ids);
      BlockBounds(b, size);
    }
  }

  lemma BlockBounds(b: int, size: int)
    requires b >= 2 && size >= 1
    ensures (b - 1) * size >= size
  {}

  lemma LocalBound(truth: set<int>, b: int, size: int, x: int)
    requires x in Local(truth, b, size)
    ensures 1 <= x <= size
  {
    var y :| y in Slice(truth, b, size) && x == y + -((b - 1) * size);
    assert b * size - (b - 1) * size == size;
  }

  lemma LocalOne(truth: set<int>, size: int)
    ensures Local(truth, 1, size) == Slice(truth, 1, size)
  {
    forall x ensures x in Local(truth, 1, size) <==> x in Slice(truth, 1, size) {
      if x in Slice(truth, 1, size) { assert x - (1 - 1) * size == x; }
    }
  }

  lemma EmptySlice(truth: set<int>, b: int, size: int)
    requires Slice(truth, b, size) == {} || Local(truth, b, size) == {}
    ensures Slice(truth, b, size) == {}
  {
    if x :| x in Slice(truth, b, size) {
      LocalOf(truth, b, size, x);
    }
  }

  lemma LocalOf(truth: set<int>, b: int, size: int, x: int)
    requires x in Slice(truth, b, size)
    ensures x - (b - 1) * size in Local(truth, b, size)
  {}

  /** Blocks 1..k of a table of known, constant block size, each reporting in its own way. */
  predicate TableBlocks(blocks: seq<Block>, truth: set<int>, size: int, tableElements: Option<int>, n: int)
    requires n >= 1
  {
    forall i :: 0 <= i < |blocks| ==>
      && blocks[i].blockId == i + 1
      && BlockSize(blocks[i].payload, tableElements, n) == Some(size)
      && Reports(blocks[i].payload, truth, i + 1, size)
  }

  /** Block `i` comes out of the offset rule as its slice of the table. */
  predicate InPlace(blocks: seq<Block>, truth: set<int>, size: int, tableElements: Option<int>, n: int, i: int)
    requires n >= 1 && 0 <= i < |blocks|
  {
    var p := blocks[i].payload;
    Elements(Offset(SortedSet(p.ids), blocks[i].blockId, BlockSize(p, tableElements, n))) == Slice(truth, i + 1, size)
  }

  lemma {:induction false} MergeCollects(blocks: seq<Block>, truth: set<int>, size: int,
                                        tableElements: Option<int>, n: int)
    requires n >= 1 && size >= 1
    requires forall i :: 0 <= i < |blocks| ==> InPlace(blocks, truth, size, tableElements, n, i)
    ensures Elements(MergedIds(blocks, tableElements, n)) == set x | x in truth && 0 < x <= |blocks| * size
    decreases |blocks|
  {
    hide Offset, BlockSize, Slice, SortedSet;
    if blocks != [] {
      var k := |blocks|;
      var front, last := blocks[..k - 1], blocks[k - 1];
      forall i | 0 <= i < k - 1 ensures InPlace(front, truth, size, tableElements, n, i) {
        assert front[i] == blocks[i] && InPlace(blocks, truth, size, tableElements, n, i);
      }
      MergeCollects(front, truth, size, tableElements, n);
      var own := Offset(SortedSet(last.payload.ids), last.blockId, BlockSize(last.payload, tableElements, n));
      assert InPlace(blocks, truth, size, tableElements, n, k - 1);
      ElementsConcat(MergedIds(front, tableElements, n), own);
      OneMoreSlice(truth, k, size);
    }
  }

  lemma OneMoreSlice(truth: set<int>, k: int, size: int)
    requires k >= 1 && size >= 1
    ensures (set x | x in truth && 0 < x <= (k - 1) * size) + Slice(truth, k, size)
         == set x | x in truth && 0 < x <= k * size
  {
    assert k * size == (k - 1) * size + size;
    assert (k - 1) * size >= 0;
  }

  /** The merge of a whole table is the ascending list of its configured ids, each once. */
  lemma MergeExact(blocks: seq<Block>, truth: set<int>, size: int, tableElements: Option<int>)
    requires |blocks| >= 1 && size >= 1
    requires TableBlocks(blocks, truth, size, tableElements, |blocks|)
    requires forall x :: x in truth ==> 1 <= x <= |blocks| * size
    ensures var merged := SortedSet(MergedIds(blocks, tableElements, |blocks|));
      Ascending(merged) && Elements(merged) == truth
  {
    forall i | 0 <= i < |blocks| ensures InPlace(blocks, truth, size, tableElements, |blocks|, i) {
      SortedSetIs(blocks[i].payload.ids);
      OffsetRight(SortedSet(blocks[i].payload.ids), truth, i + 1, size);
    }
    AllInPlace(blocks, truth, size, tableElements);
  }

  /** Whatever sizes were computed, blocks that all come out in place merge to the table. */
  lemma AllInPlace(blocks: seq<Block>, truth: set<int>, size: int, tableElements: Option<int>)
    requires |blocks| >= 1 && size >= 1
    requires forall i :: 0 <= i < |blocks| ==> InPlace(blocks, truth, size, tableElements, |blocks|, i)
    requires forall x :: x in truth ==> 1 <= x <= |blocks| * size
    ensures var merged := SortedSet(MergedIds(blocks, tableElements, |blocks|));
      Ascending(merged) && Elements(merged) == truth
  {
    hide InPlace;
    MergeCollects(blocks, truth, size, tableElements, |blocks|);
    SortedSetIs(MergedIds(blocks, tableElements, |blocks|));
    assert (set x | x in truth && 0 < x <= |blocks| * size) == truth;
  }

  // ---------------------------------------------------------------- any computed size

  function Out(block: Block, tableElements: Option<int>, n: int): seq<int>
    requires n >= 1
  {
    Offset(SortedSet(block.payload.ids), block.blockId, BlockSize(block.payload, tableElements, n))
  }

  lemma {:induction false} InMerged(blocks: seq<Block>, tableElements: Option<int>, n: int, x: int)
    requires n >= 1
    ensures x in Elements(MergedIds(blocks, tableElements, n))
            <==> exists i :: 0 <= i < |blocks| && x in Elements(Out(blocks[i], tableElements, n))
    decreases |blocks|
  {
    hide Offset, BlockSize, SortedSet;
    if blocks != [] {
      var k := |blocks| - 1;
      InMerged(blocks[..k], tableElements, n, x);
      ElementsConcat(MergedIds(blocks[..k], tableElements, n), Out(blocks[k], tableElements, n));
      if i :| 0 <= i < |blocks| && x in Elements(Out(blocks[i], tableElements, n)) {
        assert i < k ==> blocks[..k][i] == blocks[i];
      }
    }
  }

  /** A table in blocks 1..n of `size` ids, whose computed size is `w` for every block. */
  predicate Sized(blocks: seq<Block>, truth: set<int>, size: int, tableElements: Option<int>, w: Option<int>) {
    && |blocks| >= 1 && size >= 1 && (w.Some? ==> w.value >= 1)
    && (forall x :: x in truth ==> 1 <= x <= |blocks| * size)
    && (forall i :: 0 <= i < |blocks| ==>
          && blocks[i].blockId == i + 1
          && BlockSize(blocks[i].payload, tableElements, |blocks|) == w
          && Reports(blocks[i].payload, truth, i + 1, size))
  }

  /** The offset rule guesses right on block `i`. */
  predicate Guessed(blocks: seq<Block>, truth: set<int>, size: int, w: Option<int>, i: int)
    requires 0 <= i < |blocks|
  {
    GuessesRight(SortedSet(blocks[i].payload.ids), truth, i + 1, size, w)
  }

  predicate AllGuessed(blocks: seq<Block>, truth: set<int>, size: int, w: Option<int>) {
    forall i :: 0 <= i < |blocks| ==> Guessed(blocks, truth, size, w, i)
  }

  /** A wrongly guessed block: `top` and `low` are the ends of its slice, and every id it comes
      out with is below `top` if the computed size is too small, above `low` if too large. */
  lemma WrongBlock(ids: seq<int>, truth: set<int>, b: int, size: int, w: Option<int>) returns (low: int, top: int)
    requires b >= 1 && size >= 1 && (w.Some? ==> w.value >= 1) && Ascending(ids)
    requires Elements(ids) == Slice(truth, b, size) || Elements(ids) == Local(truth, b, size)
    requires !GuessesRight(ids, truth, b, size, w)
    ensures low in Slice(truth, b, size) && top in Slice(truth, b, size)
    ensures w.None? || w.value <= size ==> forall z :: z in Elements(Offset(ids, b, w)) ==> z < top
    ensures w.Some? && w.value >= size ==> forall z :: z in Elements(Offset(ids, b, w)) ==> z > low
  {
    hide Offset, Slice, Local, Moved, Owed, GuessesRight, Image, Elements, Ascending;
    NotFirst(ids, truth, b, size, w);
    var moved, owed := Moved(ids, b, w), Owed(ids, truth, b, size);
    OffsetMoves(ids, b, w);
    SliceOwed(ids, truth, b, size);
    Drift(ids, truth, b, size, w);
    low, top := ids[0] + owed, Max(ids) + owed;
    ImageEnds(ids, owed);
    ImageEnds(ids, moved);
  }

  lemma ImageEnds(ids: seq<int>, shift: int)
    requires ids != [] && Ascending(ids)
    ensures ids[0] + shift in Image(Elements(ids), shift) && Max(ids) + shift in Image(Elements(ids), shift)
    ensures forall z :: z in Image(Elements(ids), shift) ==> ids[0] + shift <= z <= Max(ids) + shift
  {
    MaxIs(ids);
    assert ids[0] in Elements(ids) && Max(ids) in Elements(ids);
  }

  lemma NotFirst(ids: seq<int>, truth: set<int>, b: int, size: int, w: Option<int>)
    requires b >= 1 && !GuessesRight(ids, truth, b, size, w)
    ensures b >= 2 && ids != []
  {}

  lemma {:induction false} LastWrong(blocks: seq<Block>, truth: set<int>, size: int, w: Option<int>, k: nat)
    returns (i: nat)
    requires k <= |blocks| && exists j :: 0 <= j < k && !Guessed(blocks, truth, size, w, j)
    ensures i < k && !Guessed(blocks, truth, size, w, i)
    ensures forall j :: i < j < k ==> Guessed(blocks, truth, size, w, j)
  {
    hide Guessed;
    i := k - 1;
    if Guessed(blocks, truth, size, w, k - 1) {
      i := LastWrong(blocks, truth, size, w, k - 1);
    }
  }

  lemma {:induction false} FirstWrong(blocks: seq<Block>, truth: set<int>, size: int, w: Option<int>, k: nat)
    returns (i: nat)
    requires exists j :: k <= j < |blocks| && !Guessed(blocks, truth, size, w, j)
    ensures k <= i < |blocks| && !Guessed(blocks, truth, size, w, i)
    ensures forall j :: k <= j < i ==> Guessed(blocks, truth, size, w, j)
    decreases |blocks| - k
  {
    hide Guessed;
    i := k;
    if Guessed(blocks, truth, size, w, k) {
      i := FirstWrong(blocks, truth, size, w, k + 1);
    }
  }

  lemma SlicesApart(truth: set<int>, size: int, a: int, b: int, x: int, y: int)
    requires 1 <= a < b && size >= 1 && x in Slice(truth, a, size) && y in Slice(truth, b, size)
    ensures x < y
  {
    assert a * size <= (b - 1) * size;
  }

  /** A block guessed right does not produce an id of another slice. */
  lemma RightElsewhere(blocks: seq<Block>, truth: set<int>, size: int, tableElements: Option<int>,
                       w: Option<int>, i: nat, j: nat, x: int)
    requires Sized(blocks, truth, size, tableElements, w) && i < |blocks| && j < |blocks| && i != j
    requires x in Slice(truth, i + 1, size) && Guessed(blocks, truth, size, w, j)
    ensures x !in Elements(Out(blocks[j], tableElements, |blocks|))
  {
    hide Offset, Slice, SortedSet, BlockSize;
    SortedSetIs(blocks[j].payload.ids);
    OffsetRightIff(SortedSet(blocks[j].payload.ids), truth, j + 1, size, w);
    if x in Slice(truth, j + 1, size) {
      if i < j { SlicesApart(truth, size, i + 1, j + 1, x, x); } else { SlicesApart(truth, size, j + 1, i + 1, x, x); }
    }
  }

  /** One wrong guess loses an id: with too small a size the last id of the last wrong block,
      with too large a size the first id of the first one. */
  lemma WrongGuessLoses(blocks: seq<Block>, truth: set<int>, size: int, tableElements: Option<int>, w: Option<int>)
    returns (x: int)
    requires Sized(blocks, truth, size, tableElements, w) && !AllGuessed(blocks, truth, size, w)
    ensures x in truth && x !in Elements(MergedIds(blocks, tableElements, |blocks|))
  {
    hide Offset, SortedSet, BlockSize, Guessed;
    var small := w.None? || w.value <= size;
    var i: nat;
    if small {
      i := LastWrong(blocks, truth, size, w, |blocks|);
    } else {
      i := FirstWrong(blocks, truth, size, w, 0);
    }
    var low, top := WrongBlockAt(blocks, truth, size, tableElements, w, i);
    x := if small then top else low;
    forall j | 0 <= j < |blocks| ensures x !in Elements(Out(blocks[j], tableElements, |blocks|)) {
      if Guessed(blocks, truth, size, w, j) {
        RightElsewhere(blocks, truth, size, tableElements, w, i, j, x);
      } else {
        var low', top' := WrongBlockAt(blocks, truth, size, tableElements, w, j);
        if j < i { SlicesApart(truth, size, j + 1, i + 1, top', x); }
        if i < j { SlicesApart(truth, size, i + 1, j + 1, x, low'); }
      }
    }
    InMerged(blocks, tableElements, |blocks|, x);
  }

  lemma WrongBlockAt(blocks: seq<Block>, truth: set<int>, size: int, tableElements: Option<int>, w: Option<int>,
                     i: nat)
    returns (low: int, top: int)
    requires Sized(blocks, truth, size, tableElements, w) && i < |blocks|
    requires !Guessed(blocks, truth, size, w, i)
    ensures low in Slice(truth, i + 1, size) && top in Slice(truth, i + 1, size)
    ensures w.None? || w.value <= size ==>
              forall z :: z in Elements(Out(blocks[i], tableElements, |blocks|)) ==> z < top
    ensures w.Some? && w.value >= size ==>
              forall z :: z in Elements(Out(blocks[i], tableElements, |blocks|)) ==> z > low
  {
    hide Offset, Slice, BlockSize;
    SortedSetIs(blocks[i].payload.ids);
    low, top := WrongBlock(SortedSet(blocks[i].payload.ids), truth, i + 1, size, w);
  }

  /** For any computed size, missing or wrong, the merge of a whole table is its configured ids
      if and only if the offset rule guesses right on every block. */
  lemma MergeRightIff(blocks: seq<Block>, truth: set<int>, size: int, tableElements: Option<int>, w: Option<int>)
    requires Sized(blocks, truth, size, tableElements, w)
    ensures Elements(SortedSet(MergedIds(blocks, tableElements, |blocks|))) == truth
            <==> AllGuessed(blocks, truth, size, w)
  {
    hide Offset, SortedSet, BlockSize, Slice, MergedIds;
    SortedSetIs(MergedIds(blocks, tableElements, |blocks|));
    if AllGuessed(blocks, truth, size, w) {
      forall i | 0 <= i < |blocks| ensures InPlace(blocks, truth, size, tableElements, |blocks|, i) {
        assert Guessed(blocks, truth, size, w, i);
        SortedSetIs(blocks[i].payload.ids);
        OffsetRightIff(SortedSet(blocks[i].payload.ids), truth, i + 1, size, w);
      }
      AllInPlace(blocks, truth, size, tableElements);
    } else {
      var x := WrongGuessLoses(blocks, truth, size, tableElements, w);
    }
  }

  /** One computed size for all blocks matters: with different ones two wrong guesses can cancel.
      In a table of three blocks of 2 ids with 3 and 5 configured, the second block states the
      size 4 and comes out as the third, the third states 1 and comes out as the second. */
  lemma WrongGuessesCanCancel()
    ensures var p, q := Payload(Some(2), Some(3), None, Some(4), [1]), Payload(Some(3), Some(3), None, Some(1), [1]);
      && Reports(p, {3, 5}, 2, 2) && Reports(q, {3, 5}, 3, 2)
      && Out(Block(2, p), None, 3) == [5] && Out(Block(3, q), None, 3) == [3]
      && Elements(MergedIds([Block(1, Payload(Some(1), Some(3), None, None, [])), Block(2, p), Block(3, q)], None, 3))
         == {3, 5}
  {
    var p, q := Payload(Some(2), Some(3), None, Some(4), [1]), Payload(Some(3), Some(3), None, Some(1), [1]);
    assert Slice({3, 5}, 2, 2) == {3} && Slice({3, 5}, 3, 2) == {5};
    assert Local({3, 5}, 2, 2) == {1} && Local({3, 5}, 3, 2) == {1};
    assert SortedSet([1]) == Insert(SortedSet([1][..0]), 1) == [1];
    assert Shifted([1], 4) == [5] + Shifted([1][1..], 4) == [5];
    assert Shifted([1], 2) == [3] + Shifted([1][1..], 2) == [3];
    var blocks := [Block(1, Payload(Some(1), Some(3), None, None, [])), Block(2, p), Block(3, q)];
    assert blocks[..2][..1] == blocks[..1] && blocks[..1][..0] == [];
    assert MergedIds(blocks[..1], None, 3) == [] + [];
    assert MergedIds(blocks[..2], None, 3) == [] + [5];
    assert MergedIds(blocks, None, 3) == [5] + [3] == [5, 3];
  }

  /** Without a known size a block-local report is not moved: two blocks of a table with the
      ids 1 and 3 merge to 1 alone. */
  lemma UnknownSizeCollapses()
    ensures var p := Payload(Some(1), Some(2), None, None, [1]);
      var q := Payload(Some(2), Some(2), None, None, [1]);
      && Reports(p, {1, 3}, 1, 2) && Reports(q, {1, 3}, 2, 2)
      && SortedSet(MergedIds([Block(1, p), Block(2, q)], None, 2)) == [1]
  {
    SmallSlices();
    hide Slice, Local, Elements;
    var p := Payload(Some(1), Some(2), None, None, [1]);
    var q := Payload(Some(2), Some(2), None, None, [1]);
    var blocks := [Block(1, p), Block(2, q)];
    assert blocks[..1] == [Block(1, p)] && blocks[..1][..0] == [];
    assert SortedSet([1]) == Insert(SortedSet([1][..0]), 1) == [1];
    assert MergedIds(blocks[..1], None, 2) == [] + [1] == [1];
    assert MergedIds(blocks, None, 2) == [1] + [1] == [1, 1];
    assert [1, 1][..1] == [1];
    assert SortedSet([1, 1]) == Insert([1], 1);
  }

  lemma SmallSlices()
    ensures Slice({1, 3}, 1, 2) == {1} == Elements([1])
    ensures Local({1, 3}, 2, 2) == {1}
  {
    assert Slice({1, 3}, 2, 2) == {3};
  }

  /** From arrivals to inventory: blocks of a table arriving in any order, with duplicates and
      among other transfers, end as the ascending list of the configured ids. */
  lemma PagedInventoryExact(m: Transfers, run: seq<Event>, last: Event, key: Key, n: nat,
                            truth: set<int>, size: int, tableElements: Option<int>)
    requires n >= 1 && size >= 1 && key !in m
    requires Steady(m, run + [last], key, n) && last.Arrives? && last.key == key
    requires Seen(run, key) != Range(n) && Seen(run + [last], key) == Range(n)
    requires forall i :: 1 <= i <= n ==>
      var p := FirstCopy(run + [last], key, i);
      BlockSize(p, tableElements, n) == Some(size) && Reports(p, truth, i, size)
    requires forall x :: x in truth ==> 1 <= x <= n * size
    ensures var handling := Step(After(m, run), last).handling;
      handling.Assembled?
      && (var merged := SortedSet(MergedIds(handling.blocks, tableElements, n));
          Ascending(merged) && Elements(merged) == truth)
  {
    hide Step, FirstCopy, Seen, After;
    Reassembled(m, run, last, key, n);
    var blocks := Step(After(m, run), last).handling.blocks;
    forall i | 0 <= i < |blocks|
      ensures blocks[i].blockId == i + 1
           && BlockSize(blocks[i].payload, tableElements, n) == Some(size)
           && Reports(blocks[i].payload, truth, i + 1, size)
    {
      assert blocks[(i + 1) - 1] == Block(i + 1, FirstCopy(run + [last], key, i + 1));
    }
    MergeExact(blocks, truth, size, tableElements);
  }

  // ---------------------------------------------------------------- bitmasks

  /** Bit number `id - 1` of a mask. */
  predicate HasId(mask: nat, id: nat)
    requires id >= 1
  {
    mask / Pow2(id - 1) % 2 == 1
  }

  /** The ids below `limit` whose bits are set, ascending. */
  function IdsBelow(mask: nat, limit: nat): seq<int>
    requires limit >= 1
  {
    if limit == 1 then []
    else IdsBelow(mask, limit - 1) + if HasId(mask, limit - 1) then [limit - 1] else []
  }

  function SumOfBits(ids: seq<int>): nat
    requires forall i :: 0 <= i < |ids| ==> ids[i] >= 1
  {
    if ids == [] then 0 else SumOfBits(ids[..|ids| - 1]) + Pow2(ids[|ids| - 1] - 1)
  }

  /** `mask & bit` for a power of two is the bit test. A negative mask yields nothing. */
  method IdsFromBitmask(mask: int) returns (ids: seq<int>)
    ensures mask < 0 ==> ids == []
    ensures mask >= 0 ==> Ascending(ids)
    ensures mask >= 0 ==> forall id: nat :: id >= 1 ==> (id in ids <==> HasId(mask, id))
    ensures mask >= 0 ==> (forall i :: 0 <= i < |ids| ==> ids[i] >= 1) && SumOfBits(ids) == mask
  {
    ids := [];
    var bit := 1;
    var areaId := 1;
    while bit <= mask
      invariant areaId >= 1 && bit == Pow2(areaId - 1)
      invariant mask >= 0 ==> ids == IdsBelow(mask, areaId)
      invariant mask < 0 ==> ids == [] && bit == 1
      decreases mask - bit
    {
      if mask / bit % 2 == 1 {
        ids := ids + [areaId];
      }
      bit := 2 * bit;
      areaId := areaId + 1;
    }
    if mask >= 0 {
      BelowAscending(mask, areaId);
      BelowSums(mask, areaId);
      SmallModulus(mask, bit);
      forall id: nat | id >= 1 ensures id in ids <==> HasId(mask, id) {
        if id >= areaId { HighBitsClear(mask, areaId, id); }
      }
    }
  }

  lemma SmallModulus(a: nat, b: nat)
    requires a < b
    ensures a % b == a && a / b == 0
  {}

  lemma {:induction false} BelowAscending(mask: nat, limit: nat)
    requires limit >= 1
    ensures var ids := IdsBelow(mask, limit);
      && Ascending(ids) && (forall i :: 0 <= i < |ids| ==> 1 <= ids[i] < limit)
      && (forall id: nat :: 1 <= id < limit ==> (id in ids <==> HasId(mask, id)))
  {
    if limit > 1 {
      BelowAscending(mask, limit - 1);
      var before := IdsBelow(mask, limit - 1);
      forall id: nat | 1 <= id < limit ensures id in IdsBelow(mask, limit) <==> HasId(mask, id) {
        if id < limit - 1 { assert id in before <==> HasId(mask, id); }
        else if id in before { assert false; }
      }
    }
  }

  lemma {:induction false} BelowSums(mask: nat, limit: nat)
    requires limit >= 1
    ensures forall i :: 0 <= i < |IdsBelow(mask, limit)| ==> IdsBelow(mask, limit)[i] >= 1
    ensures SumOfBits(IdsBelow(mask, limit)) == mask % Pow2(limit - 1)
  {
    hide HasId, SumOfBits;
    BelowAscending(mask, limit);
    if limit > 1 {
      BelowSums(mask, limit - 1);
      OneMoreBit(IdsBelow(mask, limit - 1), limit - 1, HasId(mask, limit - 1));
      BitOrNot(mask, limit - 1);
    } else {
      NoBits();
    }
  }

  lemma NoBits()
    ensures SumOfBits([]) == 0
  {}

  lemma OneMoreBit(before: seq<int>, id: int, has: bool)
    requires id >= 1 && forall i :: 0 <= i < |before| ==> before[i] >= 1
    ensures SumOfBits(before + if has then [id] else []) == SumOfBits(before) + if has then Pow2(id - 1) else 0
  {
    hide Pow2;
    if has {
      assert (before + [id])[..|before|] == before && (before + [id])[|before|] == id;
    } else {
      assert before + [] == before;
    }
  }

  /** One more bit of the mask. */
  lemma BitOrNot(mask: nat, id: nat)
    requires id >= 1
    ensures mask % Pow2(id) == mask % Pow2(id - 1) + if HasId(mask, id) then Pow2(id - 1) else 0
  {
    SplitModulus(mask, Pow2(id - 1));
  }

  lemma SplitModulus(a: nat, p: nat)
    requires p >= 1
    ensures a % (2 * p) == a % p + (if a / p % 2 == 1 then p else 0)
  {
    var q, r := a / p, a % p;
    assert a == p * q + r;
    if q % 2 == 1 {
      Divides(a, 2 * p, q / 2, r + p, p, q, r);
    } else {
      Divides(a, 2 * p, q / 2, r, p, q, r);
    }
  }

  lemma Divides(a: int, d: int, k: int, rest: int, p: int, q: int, r: int)
    requires p >= 1 && d == 2 * p && a == p * q + r && 0 <= r < p
    requires (q == 2 * k && rest == r) || (q == 2 * k + 1 && rest == r + p)
    ensures a % d == rest
  {
    assert p * q == d * k + (if q == 2 * k then 0 else p) by {
      assert p * (2 * k) == d * k;
      assert p * (2 * k + 1) == d * k + p;
    }
    assert a == d * k + rest && 0 <= rest < d;
    RemainderIs(a, d, k, rest);
  }

  lemma {:induction false} HighBitsClear(mask: nat, limit: nat, id: nat)
    requires 1 <= limit <= id && mask < Pow2(limit - 1)
    ensures !HasId(mask, id)
  {
    PowMonotone(limit - 1, id - 1);
    SmallModulus(mask, Pow2(id - 1));
  }

  lemma {:induction false} PowMonotone(a: nat, b: nat)
    requires a <= b
    ensures Pow2(a) <= Pow2(b)
  {
    if a < b { PowMonotone(a, b - 1); }
  }
}
