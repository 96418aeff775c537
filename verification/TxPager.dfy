/** The history pager: a buffer of expanded account blocks, fetched in chunks, shown
    as filtered pages. */
module TxPager {
  import opened TxTypes

  datatype Direction = Out | In | Pair

  /** `amount` is None when it does not parse as an integer. */
  datatype TxRecord = TxRecord(direction: Direction, amount: Option<int>, hash: nat)

  /** A receive block carries the send it is paired with, when the node returns it. */
  datatype Block = Send(sent: TxRecord) | Receive(paired: Option<TxRecord>, own: TxRecord)

  const PAGE_SIZE := 10
  const BLOCK_FETCH := 20
  const MAX_CHUNKS := 50

  /** blockToRecords: one OUT row, or an IN row for the value and a PAIR row. */
  function Expand(b: Block): (rows: seq<TxRecord>)
    ensures 1 <= |rows| <= 2
  {
    match b
    case Send(sent) => [sent.(direction := Out)]
    case Receive(None, own) => [own.(direction := Pair)]
    case Receive(Some(p), own) => [p.(direction := In), own.(direction := Pair)]
  }

  function ExpandAll(blocks: seq<Block>): seq<TxRecord> {
    if blocks == [] then [] else Expand(blocks[0]) + ExpandAll(blocks[1..])
  }

  predicate IsTransfer(t: TxRecord) {
    t.direction != Pair && (t.amount.None? || t.amount.value > 0)
  }

  function Filter(rows: seq<TxRecord>, transfersOnly: bool): seq<TxRecord> {
    if !transfersOnly || rows == [] then rows
    else if IsTransfer(rows[0]) then [rows[0]] + Filter(rows[1..], true)
    else Filter(rows[1..], true)
  }

  function Min(a: nat, b: nat): nat {
    if a < b then a else b
  }

  function Slice(rows: seq<TxRecord>, from: nat, to: nat): seq<TxRecord>
    requires from <= to
  {
    rows[Min(from, |rows|)..Min(to, |rows|)]
  }

  datatype TxPage = TxPage(records: seq<TxRecord>, hasMore: bool)

  /** GetTransactions over the blocks of the active address. */
  function GetTransactions(ledger: seq<Block>, page: nat, count: nat): TxPage {
    TxPage(ExpandAll(ledger[Min(page * count, |ledger|)..Min((page + 1) * count, |ledger|)]), (page + 1) * count < |ledger|)
  }

  /** The rows of the first `chunks` chunks. */
  function Fetched(ledger: seq<Block>, chunks: nat): seq<TxRecord> {
    ExpandAll(ledger[..Min(chunks * BLOCK_FETCH, |ledger|)])
  }

  /** What the pager is a view of: the first thousand blocks, filtered. */
  function Truth(ledger: seq<Block>, transfersOnly: bool): seq<TxRecord> {
    Filter(Fetched(ledger, MAX_CHUNKS), transfersOnly)
  }

  lemma OneBlock(blocks: seq<Block>)
    ensures ExpandAll(blocks) == if blocks == [] then [] else Expand(blocks[0]) + ExpandAll(blocks[1..])
  {}

  lemma Regroup(a: seq<TxRecord>, b: seq<TxRecord>, c: seq<TxRecord>)
    ensures a + (b + c) == (a + b) + c
  {}

  lemma {:induction false} ExpandAppends(a: seq<Block>, b: seq<Block>)
    ensures ExpandAll(a + b) == ExpandAll(a) + ExpandAll(b)
  {
    hide ExpandAll, Expand;
    OneBlock(a);
    if a == [] { assert a + b == b; }
    else {
      ExpandAppends(a[1..], b);
      OneBlock(a + b);
      assert (a + b)[1..] == a[1..] + b;
      Regroup(Expand(a[0]), ExpandAll(a[1..]), ExpandAll(b));
    }
  }

  lemma {:induction false} FilterAppends(a: seq<TxRecord>, b: seq<TxRecord>, transfersOnly: bool)
    ensures Filter(a + b, transfersOnly) == Filter(a, transfersOnly) + Filter(b, transfersOnly)
  {
    if transfersOnly {
      if a == [] { assert a + b == b; }
      else {
        FilterAppends(a[1..], b, true);
        assert (a + b)[1..] == a[1..] + b;
      }
    }
  }

  /** One more chunk appends exactly what the backend returns. */
  lemma FetchedGrows(ledger: seq<Block>, chunks: nat)
    ensures Fetched(ledger, chunks + 1) == Fetched(ledger, chunks) + GetTransactions(ledger, chunks, BLOCK_FETCH).records
  {
    var m, n := Min(chunks * BLOCK_FETCH, |ledger|), Min((chunks + 1) * BLOCK_FETCH, |ledger|);
    ExpandAppends(ledger[..m], ledger[m..n]);
    assert ledger[..n] == ledger[..m] + ledger[m..n];
  }

  lemma FetchedAll(ledger: seq<Block>, chunks: nat)
    requires |ledger| <= chunks * BLOCK_FETCH <= MAX_CHUNKS * BLOCK_FETCH
    ensures Fetched(ledger, chunks) == Fetched(ledger, MAX_CHUNKS)
  {}

  /** What was fetched is a prefix of the truth, filtered or not. */
  lemma {:induction false} FetchedIsPrefix(ledger: seq<Block>, chunks: nat, transfersOnly: bool)
    requires chunks <= MAX_CHUNKS
    ensures Filter(Fetched(ledger, chunks), transfersOnly) <= Truth(ledger, transfersOnly)
  {
    var m, n := Min(chunks * BLOCK_FETCH, |ledger|), Min(MAX_CHUNKS * BLOCK_FETCH, |ledger|);
    ExpandAppends(ledger[..m], ledger[m..n]);
    assert ledger[..n] == ledger[..m] + ledger[m..n];
    FilterAppends(Fetched(ledger, chunks), ExpandAll(ledger[m..n]), transfersOnly);
  }

  // ---- What the rows are

  /** A value that moved: one that parses as positive, or does not parse. */
  predicate Carries(t: TxRecord) {
    t.amount.None? || t.amount.value > 0
  }

  /** The row a block contributes as a transfer: an OUT row for what was sent, an IN row
      for what was received. */
  predicate Transfers(b: Block, r: TxRecord) {
    match b
    case Send(sent) => Carries(sent) && r == TxRecord(Out, sent.amount, sent.hash)
    case Receive(paired, _) => paired.Some? && Carries(paired.value) && r == TxRecord(In, paired.value.amount, paired.value.hash)
  }

  /** The row a receive contributes besides: its own block, paired with the send. */
  predicate Pairs(b: Block, r: TxRecord) {
    b.Receive? && r == TxRecord(Pair, b.own.amount, b.own.hash)
  }

  predicate Moves(b: Block, r: TxRecord) {
    match b
    case Send(sent) => r == TxRecord(Out, sent.amount, sent.hash)
    case Receive(paired, _) => paired.Some? && r == TxRecord(In, paired.value.amount, paired.value.hash)
  }

  lemma RowsOfBlock(b: Block, r: TxRecord)
    ensures r in Expand(b) <==> Moves(b, r) || Pairs(b, r)
    ensures r in Expand(b) && IsTransfer(r) <==> Transfers(b, r)
    ensures |Expand(b)| == if b.Receive? && b.paired.Some? then 2 else 1
  {}

  /** Unfiltered, the rows are one for each value moved and one for each receive block,
      nothing else. */
  lemma {:induction false} RowsAreTheBlocks(blocks: seq<Block>, r: TxRecord)
    ensures r in ExpandAll(blocks) <==> exists b :: b in blocks && (Moves(b, r) || Pairs(b, r))
  {
    if blocks != [] {
      hide Moves, Pairs;
      RowsAreTheBlocks(blocks[1..], r);
      RowsOfBlock(blocks[0], r);
      assert blocks == [blocks[0]] + blocks[1..];
      OneBlock(blocks);
      hide ExpandAll, Expand;
    }
  }

  /** The filter keeps a row exactly when it carries value and is no pairing row, and
      keeps it as often as it occurs. */
  lemma {:induction false} FilterKeepsTransfers(rows: seq<TxRecord>, r: TxRecord)
    ensures multiset(Filter(rows, true))[r] == if r.direction != Pair && Carries(r) then multiset(rows)[r] else 0
    ensures Filter(rows, false) == rows
  {
    if rows != [] {
      FilterKeepsTransfers(rows[1..], r);
      assert rows == [rows[0]] + rows[1..];
      assert multiset(rows)[r] == (if rows[0] == r then 1 else 0) + multiset(rows[1..])[r];
    }
  }

  /** The transfers shown are exactly the values moved by the blocks. */
  lemma TransfersAreTheMoves(blocks: seq<Block>, r: TxRecord)
    ensures r in Filter(ExpandAll(blocks), true) <==> exists b :: b in blocks && Transfers(b, r)
  {
    FilterKeepsTransfers(ExpandAll(blocks), r);
    RowsAreTheBlocks(blocks, r);
    hide ExpandAll, Filter;
    forall b | b in blocks ensures Transfers(b, r) <==> (Moves(b, r) || Pairs(b, r)) && r.direction != Pair && Carries(r) {}
    hide Moves, Pairs, Transfers;
    assert r in Filter(ExpandAll(blocks), true) <==> multiset(Filter(ExpandAll(blocks), true))[r] > 0;
    assert r in ExpandAll(blocks) <==> multiset(ExpandAll(blocks))[r] > 0;
  }

  function Pages(rows: seq<TxRecord>, n: nat): seq<TxRecord> {
    if n == 0 then [] else Pages(rows, n - 1) + Slice(rows, (n - 1) * PAGE_SIZE, n * PAGE_SIZE)
  }

  /** Paging through shows every row once, in order. */
  lemma {:induction false} PagesCover(rows: seq<TxRecord>, n: nat)
    ensures Pages(rows, n) == rows[..Min(n * PAGE_SIZE, |rows|)]
  {
    if n > 0 {
      PagesCover(rows, n - 1);
    }
  }

  /** Slices of a prefix that is long enough, or complete, are slices of the whole. */
  lemma PageOfPrefix(part: seq<TxRecord>, whole: seq<TxRecord>, page: nat)
    requires part <= whole && (part == whole || |part| > (page + 1) * PAGE_SIZE)
    ensures Slice(part, page * PAGE_SIZE, (page + 1) * PAGE_SIZE) == Slice(whole, page * PAGE_SIZE, (page + 1) * PAGE_SIZE)
    ensures |part| > (page + 1) * PAGE_SIZE <==> |whole| > (page + 1) * PAGE_SIZE
  {}

  lemma SliceOfPrefix(part: seq<TxRecord>, whole: seq<TxRecord>, from: nat, to: nat)
    requires part <= whole && from <= to
    ensures Slice(part, from, to) <= Slice(whole, from, to)
  {
    var lo, hi, top := Min(from, |part|), Min(to, |part|), Min(to, |whole|);
    if lo < |part| {
      assert part[lo..hi] == whole[lo..hi] == whole[lo..top][..hi - lo];
    }
  }

  /** `up` says which backend calls succeed. */
  class TxsStore {
    var buffer: seq<TxRecord>
    var chunkIndex: nat
    var hasMoreBlocks: bool
    var page: nat
    var transfersOnly: bool

    ghost predicate Valid(ledger: seq<Block>)
      reads this
    {
      chunkIndex <= MAX_CHUNKS && buffer == Fetched(ledger, chunkIndex)
    }

    /** No fetch failed: the pager stops only at the end of the ledger or at the cap. */
    ghost predicate Unbroken(ledger: seq<Block>)
      reads this
    {
      hasMoreBlocks || chunkIndex >= MAX_CHUNKS || chunkIndex * BLOCK_FETCH >= |ledger|
    }

    constructor (ledger: seq<Block>)
      ensures Valid(ledger) && Unbroken(ledger) && page == 0 && transfersOnly
    {
      buffer, chunkIndex, hasMoreBlocks, page, transfersOnly := [], 0, true, 0, true;
    }

    function Filtered(): seq<TxRecord>
      reads this
    {
      Filter(buffer, transfersOnly)
    }

    function PageItems(): seq<TxRecord>
      reads this
    {
      Slice(Filtered(), page * PAGE_SIZE, page * PAGE_SIZE + PAGE_SIZE)
    }

    function HasNextPage(): bool
      reads this
    {
      |Filtered()| > (page + 1) * PAGE_SIZE
    }

    /** The page and the next-page flag are those of the filtered ledger. */
    ghost predicate ShowsTruth(ledger: seq<Block>)
      reads this
    {
      && PageItems() == Slice(Truth(ledger, transfersOnly), page * PAGE_SIZE, (page + 1) * PAGE_SIZE)
      && (HasNextPage() <==> |Truth(ledger, transfersOnly)| > (page + 1) * PAGE_SIZE)
    }

    /** Enough rows for the page and the flag, or nothing left to fetch. */
    ghost predicate Ensured()
      reads this
    {
      HasNextPage() || !hasMoreBlocks || chunkIndex >= MAX_CHUNKS
    }

    lemma EnsuredShowsTruth(ledger: seq<Block>)
      requires Valid(ledger) && Ensured() && Unbroken(ledger)
      ensures ShowsTruth(ledger)
    {
      FetchedIsPrefix(ledger, chunkIndex, transfersOnly);
      if !HasNextPage() && chunkIndex < MAX_CHUNKS { FetchedAll(ledger, chunkIndex); }
      PageOfPrefix(Filtered(), Truth(ledger, transfersOnly), page);
    }

    /** Whatever failed, no row is ever shown out of place. */
    lemma ShowsPrefixOfTruth(ledger: seq<Block>)
      requires Valid(ledger)
      ensures Filtered() <= Truth(ledger, transfersOnly)
      ensures PageItems() <= Slice(Truth(ledger, transfersOnly), page * PAGE_SIZE, (page + 1) * PAGE_SIZE)
    {
      FetchedIsPrefix(ledger, chunkIndex, transfersOnly);
      SliceOfPrefix(Filtered(), Truth(ledger, transfersOnly), page * PAGE_SIZE, (page + 1) * PAGE_SIZE);
    }

    method FetchChunk(ledger: seq<Block>, up: nat -> bool) returns (more: bool)
      requires Valid(ledger)
      modifies this`buffer, this`chunkIndex, this`hasMoreBlocks
      ensures Valid(ledger)
      ensures old(Unbroken(ledger)) && (forall i :: up(i)) ==> Unbroken(ledger)
      ensures more ==> chunkIndex == old(chunkIndex) + 1
      ensures !more ==> chunkIndex == old(chunkIndex) && (!hasMoreBlocks || chunkIndex >= MAX_CHUNKS)
    {
      if !hasMoreBlocks || chunkIndex >= MAX_CHUNKS { return false; }
      if !up(chunkIndex) {
        hasMoreBlocks := false;
        return false;
      }
      var r := GetTransactions(ledger, chunkIndex, BLOCK_FETCH);
      FetchedGrows(ledger, chunkIndex);
      buffer := buffer + r.records;
      hasMoreBlocks := r.hasMore && chunkIndex + 1 < MAX_CHUNKS;
      chunkIndex := chunkIndex + 1;
      return true;
    }

    /** The fetch loop; it ends because every pass uses up one of the fifty chunks. */
    method Ensure(ledger: seq<Block>, up: nat -> bool)
      requires Valid(ledger)
      modifies this`buffer, this`chunkIndex, this`hasMoreBlocks
      ensures Valid(ledger) && Ensured()
      ensures old(Unbroken(ledger)) && (forall i :: up(i)) ==> Unbroken(ledger) && ShowsTruth(ledger)
    {
      while |Filtered()| <= (page + 1) * PAGE_SIZE && hasMoreBlocks
        invariant Valid(ledger)
        invariant old(Unbroken(ledger)) && (forall i :: up(i)) ==> Unbroken(ledger)
        decreases MAX_CHUNKS - chunkIndex
      {
        var more := FetchChunk(ledger, up);
        if !more { break; }
      }
      if Unbroken(ledger) { EnsuredShowsTruth(ledger); }
    }

    /** Reload: a fresh buffer is built aside and swapped in once. */
    method Load(ledger: seq<Block>, up: nat -> bool)
      modifies this`buffer, this`chunkIndex, this`hasMoreBlocks
      ensures Valid(ledger) && Ensured()
      ensures (forall i :: up(i)) ==> Unbroken(ledger) && ShowsTruth(ledger)
    {
      var rebuilt: seq<TxRecord>, idx, more := [], 0, true;
      while |Filter(rebuilt, transfersOnly)| <= (page + 1) * PAGE_SIZE && more && idx < MAX_CHUNKS
        invariant idx <= MAX_CHUNKS && rebuilt == Fetched(ledger, idx)
        invariant (forall i :: up(i)) && !more ==> idx * BLOCK_FETCH >= |ledger|
        decreases MAX_CHUNKS - idx
      {
        if !up(idx) {
          more := false;
          break;
        }
        var r := GetTransactions(ledger, idx, BLOCK_FETCH);
        FetchedGrows(ledger, idx);
        rebuilt := rebuilt + r.records;
        more := r.hasMore;
        idx := idx + 1;
      }
      if idx >= MAX_CHUNKS { more := false; }
      buffer := rebuilt;
      chunkIndex := idx;
      hasMoreBlocks := more;
      if Unbroken(ledger) { EnsuredShowsTruth(ledger); }
    }

    method Goto(ledger: seq<Block>, up: nat -> bool, target: int)
      requires Valid(ledger)
      modifies this
      ensures Valid(ledger) && page == (if target < 0 then 0 else target) && transfersOnly == old(transfersOnly)
      ensures old(Unbroken(ledger)) && (forall i :: up(i)) ==> Unbroken(ledger) && ShowsTruth(ledger)
    {
      page := if target < 0 then 0 else target;
      Ensure(ledger, up);
    }

    method SetTransfersOnly(ledger: seq<Block>, up: nat -> bool, v: bool)
      requires Valid(ledger)
      modifies this
      ensures Valid(ledger) && page == 0 && transfersOnly == v
      ensures old(Unbroken(ledger)) && (forall i :: up(i)) ==> Unbroken(ledger) && ShowsTruth(ledger)
    {
      transfersOnly := v;
      page := 0;
      Ensure(ledger, up);
    }

    /** Going back to the first page needs no fetch. */
    method ResetPage(ledger: seq<Block>)
      requires Valid(ledger) && Unbroken(ledger) && Ensured()
      modifies this`page
      ensures Valid(ledger) && Unbroken(ledger) && Ensured() && page == 0 && ShowsTruth(ledger)
    {
      page := 0;
      EnsuredShowsTruth(ledger);
    }
  }
}
