/** Exactly when a round of GetNewTxs completes, and why the cache does not matter for it (scanner/bch.go). */
module Completion {
  import opened Bytes
  import opened ChainTypes
  import opened Egtx
  import opened Scanner

  // ---------------------------------------------------------------- what a round asks, and what makes it panic

  /** The round fetches the block at height h: there is room left after the blocks before it. */
  ghost predicate AsksBlock(r: Round, derivable: Txid -> bool, scan: int, h: int) {
    && r.cl.count.Some? && scan < h <= r.cl.count.value
    && (h == scan + 1 || |Wanted(FetchedIds(r.cl, scan + 1, h - 1), r.stored, derivable)| < r.cfg.maxTxs)
  }

  /** Some transaction of these that is not stored yet panics. */
  ghost predicate HoldsPanic(r: Round, txs: seq<RawTx>) {
    exists i :: 0 <= i < |txs| && txs[i].txid !in r.stored && r.cfg.derive(txs[i], r.cl.lookup) == Panic
  }

  ghost predicate BadBlock(r: Round, h: int) {
    h in r.cl.blocks ==> HoldsPanic(r, r.cl.blocks[h])
  }

  ghost predicate MainPanics(r: Round, derivable: Txid -> bool, scan: int) {
    r.cl.count.None? || exists h :: AsksBlock(r, derivable, scan, h) && BadBlock(r, h)
  }

  /** The main-chain ids that count against the limit before the mempool is asked for. */
  ghost function MainWanted(r: Round, derivable: Txid -> bool, scan: int, scanBlock: bool): seq<Txid> {
    if scanBlock && r.cl.count.Some? then Wanted(FetchedIds(r.cl, scan + 1, r.cl.count.value), r.stored, derivable)
    else []
  }

  /** Position i of the mempool panics. */
  ghost predicate BadId(r: Round, i: int) {
    && 0 <= i < |Pool(r.cl)|
    && var t := Pool(r.cl)[i];
       t !in r.stored && t in r.cl.lookup && r.cfg.derive(r.cl.lookup[t], r.cl.lookup) == Panic
  }

  /** The round looks at position i of the mempool: there is room left after n transactions and the
      mempool ids before it. */
  ghost predicate AsksId(r: Round, derivable: Txid -> bool, n: nat, i: int) {
    && 0 <= i < |Pool(r.cl)|
    && n + |Wanted(Found(Pool(r.cl)[..i], r.cl.lookup), r.stored, derivable)| < r.cfg.maxTxs
  }

  ghost predicate PoolPanics(r: Round, derivable: Txid -> bool, n: nat) {
    n < r.cfg.maxTxs && (r.cl.mempool.None? || exists i :: AsksId(r, derivable, n, i) && BadId(r, i))
  }

  /** What makes a round panic: no block count, a block it asks for that is missing or holds a panic, or,
      while the batch is not full, no mempool or a mempool id it looks at that panics. */
  ghost predicate RoundPanics(r: Round, derivable: Txid -> bool, scan: int, scanBlock: bool) {
    || (scanBlock && MainPanics(r, derivable, scan))
    || PoolPanics(r, derivable, |MainWanted(r, derivable, scan, scanBlock)|)
  }

  /** Nothing the cache holds panics. */
  ghost predicate Harmless(r: Round, known: set<Txid>) {
    && (forall h, i :: h in r.cl.blocks && 0 <= i < |r.cl.blocks[h]| && r.cl.blocks[h][i].txid in known ==>
          r.cfg.derive(r.cl.blocks[h][i], r.cl.lookup) != Panic)
    && (forall t :: t in known && t in r.cl.lookup ==> r.cfg.derive(r.cl.lookup[t], r.cl.lookup) != Panic)
  }

  // ---------------------------------------------------------------- main-chain blocks

  lemma {:induction false} BlockPanics(r: Round, known: set<Txid>, txs: seq<RawTx>, acc: seq<Tx>, i: nat)
    requires i < |txs| && txs[i].txid !in known && txs[i].txid !in r.stored
    requires r.cfg.derive(txs[i], r.cl.lookup) == Panic
    ensures CollectBlock(r, known, txs, acc).None?
    decreases |txs|
  {
    if i > 0 {
      var o := r.cfg.derive(txs[0], r.cl.lookup);
      BlockPanics(r, known, txs[1..], acc, i - 1);
      if o.Derived? {
        BlockPanics(r, known, txs[1..], acc + [MakeTx(txs[0].txid, o.d, |acc|, r.number, r.hash)], i - 1);
      }
    }
  }

  lemma {:induction false} BlockPanicFound(r: Round, known: set<Txid>, txs: seq<RawTx>, acc: seq<Tx>)
    requires CollectBlock(r, known, txs, acc).None?
    ensures HoldsPanic(r, txs)
    decreases |txs|
  {
    var rest, o := txs[1..], r.cfg.derive(txs[0], r.cl.lookup);
    if txs[0].txid !in known && txs[0].txid !in r.stored && o == Panic {
      assert r.cfg.derive(txs[0], r.cl.lookup) == Panic;
    } else {
      var acc' := if txs[0].txid !in known && txs[0].txid !in r.stored && o.Derived?
                  then acc + [MakeTx(txs[0].txid, o.d, |acc|, r.number, r.hash)] else acc;
      BlockPanicFound(r, known, rest, acc');
      var i :| 0 <= i < |rest| && rest[i].txid !in r.stored && r.cfg.derive(rest[i], r.cl.lookup) == Panic;
      assert txs[i + 1] == rest[i];
    }
  }

  /** Where the main-chain part panics: at a block it asks for. */
  lemma {:induction false} BlocksPanicFound(r: Round, derivable: Txid -> bool, known: set<Txid>, h: int, newest: int,
                                            acc: seq<Tx>) returns (k: int)
    requires Consistent(r.cfg, r.cl, derivable) && CacheOk(known, r.stored, derivable)
    requires Shaped(acc, |acc|, r.number, r.hash) && CollectBlocks(r, known, h, newest, acc).None?
    ensures h <= k <= newest && BadBlock(r, k)
    ensures k == h || |acc| + |Wanted(FetchedIds(r.cl, h, k - 1), r.stored, derivable)| < r.cfg.maxTxs
    decreases newest - h
  {
    hide CollectBlock, FetchedIds, Wanted, Shaped, Consistent, CacheOk, HoldsPanic;
    k := h;
    if h in r.cl.blocks {
      var txs := r.cl.blocks[h];
      var next := CollectBlock(r, known, txs, acc);
      if next.None? {
        BlockPanicFound(r, known, txs, acc);
      } else {
        BlockAgrees(r, derivable, h);
        BlockCount(r, derivable, known, txs, acc);
        k := BlocksPanicFound(r, derivable, known, h + 1, newest, next.value);
        FirstOfStretch(r, derivable, h, k);
      }
    }
  }

  /** The wanted ids of the heights h .. k - 1, split after h. */
  lemma {:induction false} FirstOfStretch(r: Round, derivable: Txid -> bool, h: int, k: int)
    requires h < k && h in r.cl.blocks
    ensures |Wanted(FetchedIds(r.cl, h, k - 1), r.stored, derivable)|
         == |Wanted(BlockIds(r.cl.blocks[h]), r.stored, derivable)|
            + (if k == h + 1 then 0 else |Wanted(FetchedIds(r.cl, h + 1, k - 1), r.stored, derivable)|)
  {
    WantedFrom(r.cl, h, k - 1, r.stored, derivable);
    if k == h + 1 {
      NothingFetched(r, derivable, k);
      assert Wanted(FetchedIds(r.cl, k, k - 1), r.stored, derivable) == [];
    }
  }

  lemma {:induction false} BlocksPanicAt(r: Round, derivable: Txid -> bool, known: set<Txid>, h: int, newest: int,
                                         acc: seq<Tx>, k: int)
    requires Consistent(r.cfg, r.cl, derivable) && CacheOk(known, r.stored, derivable) && Harmless(r, known)
    requires Shaped(acc, |acc|, r.number, r.hash) && h <= k <= newest && BadBlock(r, k)
    requires k == h || |acc| + |Wanted(FetchedIds(r.cl, h, k - 1), r.stored, derivable)| < r.cfg.maxTxs
    ensures CollectBlocks(r, known, h, newest, acc).None?
    decreases newest - h
  {
    hide CollectBlock, FetchedIds, Wanted, Shaped, Consistent, CacheOk, Harmless;
    if h in r.cl.blocks {
      var txs := r.cl.blocks[h];
      if k == h {
        BadBlockPanics(r, known, h, acc);
      } else if CollectBlock(r, known, txs, acc).Some? {
        var next := CollectBlock(r, known, txs, acc).value;
        BlockAgrees(r, derivable, h);
        BlockCount(r, derivable, known, txs, acc);
        FirstOfStretch(r, derivable, h, k);
        BlocksPanicAt(r, derivable, known, h + 1, newest, next, k);
      }
    }
  }

  lemma {:induction false} BadBlockPanics(r: Round, known: set<Txid>, h: int, acc: seq<Tx>)
    requires Harmless(r, known) && h in r.cl.blocks && HoldsPanic(r, r.cl.blocks[h])
    ensures CollectBlock(r, known, r.cl.blocks[h], acc).None?
  {
    hide CollectBlock;
    var txs := r.cl.blocks[h];
    var i :| 0 <= i < |txs| && txs[i].txid !in r.stored && r.cfg.derive(txs[i], r.cl.lookup) == Panic;
    BlockPanics(r, known, txs, acc, i);
  }

  lemma {:induction false} MainPanicsIff(r: Round, derivable: Txid -> bool, scan: int, known: set<Txid>)
    requires GoodRound(r, derivable, known)
    ensures CollectMain(r, scan, known, true).None? ==> MainPanics(r, derivable, scan)
    ensures Harmless(r, known) && MainPanics(r, derivable, scan) ==> CollectMain(r, scan, known, true).None?
  {
    hide CollectBlocks, FetchedIds, Wanted, Consistent, CacheOk, Harmless, BadBlock, NoDup;
    if r.cl.count.Some? {
      var newest := r.cl.count.value;
      if CollectMain(r, scan, known, true).None? {
        var h := BlocksPanicFound(r, derivable, known, scan + 1, newest, []);
        assert AsksBlock(r, derivable, scan, h);
      }
      if Harmless(r, known) && MainPanics(r, derivable, scan) {
        var h :| AsksBlock(r, derivable, scan, h) && BadBlock(r, h);
        BlocksPanicAt(r, derivable, known, scan + 1, newest, [], h);
      }
    }
  }

  // ---------------------------------------------------------------- room for the mempool

  lemma {:induction false} FetchedSplit(cl: Client, lo: int, mid: int, hi: int)
    requires lo <= mid + 1 && mid <= hi
    ensures FetchedIds(cl, lo, hi) == FetchedIds(cl, lo, mid) + FetchedIds(cl, mid + 1, hi)
    decreases mid - lo
  {
    hide BlockIds;
    if lo <= mid {
      FetchedSplit(cl, lo + 1, mid, hi);
    }
  }

  lemma {:induction false} WantedGrows(r: Round, derivable: Txid -> bool, lo: int, mid: int, hi: int)
    requires lo <= mid + 1 && mid <= hi
    ensures |Wanted(FetchedIds(r.cl, lo, mid), r.stored, derivable)|
         <= |Wanted(FetchedIds(r.cl, lo, hi), r.stored, derivable)|
  {
    FetchedSplit(r.cl, lo, mid, hi);
    hide FetchedIds, Wanted;
    WantedConcat(FetchedIds(r.cl, lo, mid), FetchedIds(r.cl, mid + 1, hi), r.stored, derivable);
  }

  /** The main-chain part leaves room exactly when the wanted ids of all new blocks do. */
  lemma {:induction false} MainRoom(r: Round, derivable: Txid -> bool, scan: int, known: set<Txid>, scanBlock: bool)
    requires GoodRound(r, derivable, known) && CollectMain(r, scan, known, scanBlock).Some?
    ensures var n := |CollectMain(r, scan, known, scanBlock).value.txs|;
            var all := |MainWanted(r, derivable, scan, scanBlock)|;
            (n < r.cfg.maxTxs <==> all < r.cfg.maxTxs) && (n < r.cfg.maxTxs ==> n == all)
  {
    hide CollectBlocks, FetchedIds, Wanted, GoodRound, Ids, Shaped;
    var m := CollectMain(r, scan, known, scanBlock).value;
    MainForm(r, derivable, scan, known, scanBlock);
    if scanBlock {
      var newest := r.cl.count.value;
      if scan < newest {
        BlocksScan(r, known, scan + 1, newest, []);
        WantedGrows(r, derivable, scan + 1, m.scan, newest);
        CountOfBlock(m.txs, [], Wanted(FetchedIds(r.cl, scan + 1, m.scan), r.stored, derivable));
      } else {
        NothingAbove(r, derivable, scan, newest);
      }
    }
  }

  lemma {:induction false} NothingAbove(r: Round, derivable: Txid -> bool, scan: int, newest: int)
    requires newest <= scan
    ensures Wanted(FetchedIds(r.cl, scan + 1, newest), r.stored, derivable) == []
  {
  }

  // ---------------------------------------------------------------- mempool

  /** The wanted ids of positions j .. i - 1 of the mempool, split after j. */
  lemma {:induction false} FirstOfPool(r: Round, derivable: Txid -> bool, j: nat, i: nat)
    requires j < i <= |Pool(r.cl)|
    ensures var t, pool := Pool(r.cl)[j], Pool(r.cl);
            |Wanted(Found(pool[j..i], r.cl.lookup), r.stored, derivable)|
            == (if t in r.cl.lookup && t !in r.stored && derivable(t) then 1 else 0)
               + |Wanted(Found(pool[j + 1..i], r.cl.lookup), r.stored, derivable)|
  {
    var pool := Pool(r.cl);
    var t, rest := pool[j], Found(pool[j + 1..i], r.cl.lookup);
    assert pool[j..i][0] == t && pool[j..i][1..] == pool[j + 1..i];
    assert Found(pool[j..i], r.cl.lookup) == (if t in r.cl.lookup then [t] else []) + rest;
    if t in r.cl.lookup {
      WantedConcat([t], rest, r.stored, derivable);
      assert [t][1..] == [] && Wanted([], r.stored, derivable) == [];
    } else {
      assert [] + rest == rest;
    }
  }

  lemma {:induction false} NoneOfPool(r: Round, derivable: Txid -> bool, j: nat)
    requires j <= |Pool(r.cl)|
    ensures Wanted(Found(Pool(r.cl)[j..j], r.cl.lookup), r.stored, derivable) == []
  {
    assert Pool(r.cl)[j..j] == [];
  }

  /** Where the mempool part panics: at a position it looks at. */
  lemma {:induction false} PoolPanicFound(r: Round, derivable: Txid -> bool, known: set<Txid>, evict: Evictor, j: nat,
                                          acc: seq<Tx>, main: nat) returns (i: nat)
    requires Consistent(r.cfg, r.cl, derivable) && NoDup(Pool(r.cl)) && j <= |Pool(r.cl)| && |acc| < r.cfg.maxTxs
    requires PoolOk(Pool(r.cl), j, known, r.stored, derivable)
    requires CollectMempool(r, Pool(r.cl), known, evict, j, acc, main).None?
    ensures j <= i < |Pool(r.cl)| && BadId(r, i)
    ensures |acc| + |Wanted(Found(Pool(r.cl)[j..i], r.cl.lookup), r.stored, derivable)| < r.cfg.maxTxs
    decreases |Pool(r.cl)| - j
  {
    var t := Pool(r.cl)[j];
    assert t in known ==> t in r.stored || !derivable(t);
    LookupAgrees(r, derivable, t);
    PoolOkNext(Pool(r.cl), j, known, evict, r.stored, derivable);
    var skipped := t in known || t in r.stored || t !in r.cl.lookup;
    if !skipped && r.cfg.derive(r.cl.lookup[t], r.cl.lookup) == Panic {
      i := j;
      NoneOfPool(r, derivable, j);
    } else {
      hide Wanted, Found, Consistent, AddKnown, MakeTx, Pool, PoolOk, NoDup, BadId;
      var known', acc' := known, acc;
      if !skipped {
        var o := r.cfg.derive(r.cl.lookup[t], r.cl.lookup);
        known' := AddKnown(known, t, evict, j);
        acc' := if o.Derived? then acc + [MakeTx(r.cl.lookup[t].txid, o.d, main, r.number, r.hash)] else acc;
      }
      i := PoolPanicFound(r, derivable, known', evict, j + 1, acc', main);
      hide CollectMempool;
      FirstOfPool(r, derivable, j, i);
    }
  }

  lemma {:induction false} LookupAgrees(r: Round, derivable: Txid -> bool, t: Txid)
    requires Consistent(r.cfg, r.cl, derivable)
    ensures t in r.cl.lookup ==>
              r.cl.lookup[t].txid == t && Agrees(r.cfg.derive(r.cl.lookup[t], r.cl.lookup), derivable(t))
  {
  }

  lemma {:induction false} PoolPanicAt(r: Round, derivable: Txid -> bool, known: set<Txid>, evict: Evictor, j: nat,
                                       acc: seq<Tx>, main: nat, i: nat)
    requires Consistent(r.cfg, r.cl, derivable) && NoDup(Pool(r.cl)) && j <= i < |Pool(r.cl)| && BadId(r, i)
    requires PoolOk(Pool(r.cl), j, known, r.stored, derivable) && Pool(r.cl)[i] !in known
    requires |acc| + |Wanted(Found(Pool(r.cl)[j..i], r.cl.lookup), r.stored, derivable)| < r.cfg.maxTxs
    ensures CollectMempool(r, Pool(r.cl), known, evict, j, acc, main).None?
    decreases |Pool(r.cl)| - j
  {
    var pool := Pool(r.cl);
    var t := pool[j];
    assert t in known ==> t in r.stored || !derivable(t);
    if j < i {
      LookupAgrees(r, derivable, t);
      PoolOkNext(pool, j, known, evict, r.stored, derivable);
      FirstOfPool(r, derivable, j, i);
      var known' := AddKnown(known, t, evict, j);
      assert pool[i] != t && pool[i] !in known';
      hide Wanted, Found, Consistent, AddKnown, MakeTx, Pool, PoolOk, NoDup, BadId;
      if t in known || t in r.stored || t !in r.cl.lookup {
        PoolPanicAt(r, derivable, known, evict, j + 1, acc, main, i);
      } else {
        var o := r.cfg.derive(r.cl.lookup[t], r.cl.lookup);
        if o.Rejected? {
          PoolPanicAt(r, derivable, known', evict, j + 1, acc, main, i);
        } else if o.Derived? {
          var acc' := acc + [MakeTx(r.cl.lookup[t].txid, o.d, main, r.number, r.hash)];
          PoolPanicAt(r, derivable, known', evict, j + 1, acc', main, i);
        }
      }
    }
  }

  lemma {:induction false} PoolPanicsIff(r: Round, derivable: Txid -> bool, known: set<Txid>, evict: Evictor,
                                         acc: seq<Tx>, main: nat)
    requires GoodRound(r, derivable, known) && |acc| < r.cfg.maxTxs && r.cl.mempool.Some?
    ensures var pooled := CollectMempool(r, r.cl.mempool.value, known, evict, 0, acc, main);
            && (pooled.None? ==> PoolPanics(r, derivable, |acc|))
            && (Harmless(r, known) && PoolPanics(r, derivable, |acc|) ==> pooled.None?)
  {
    var pool := Pool(r.cl);
    assert PoolOk(pool, 0, known, r.stored, derivable);
    assert forall i :: 0 <= i <= |pool| ==> pool[0..i] == pool[..i];
    hide CollectMempool, Wanted, Found, Consistent, PoolOk, CacheOk, NoDup;
    if CollectMempool(r, pool, known, evict, 0, acc, main).None? {
      var i := PoolPanicFound(r, derivable, known, evict, 0, acc, main);
      assert AsksId(r, derivable, |acc|, i);
    }
    if Harmless(r, known) && PoolPanics(r, derivable, |acc|) {
      var i :| AsksId(r, derivable, |acc|, i) && BadId(r, i);
      PoolPanicAt(r, derivable, known, evict, 0, acc, main, i);
    }
  }

  // ---------------------------------------------------------------- the round as a whole

  /** A round panics only for the reasons of RoundPanics, whatever its cache holds, and for each of them
      unless the cache hides it. */
  lemma {:induction false} RoundPanicsIff(r: Round, derivable: Txid -> bool, scan: int, known: set<Txid>,
                                          scanBlock: bool, evict: Evictor)
    requires GoodRound(r, derivable, known)
    ensures GetNewTxs(r, scan, known, scanBlock, evict).Panicked? ==> RoundPanics(r, derivable, scan, scanBlock)
    ensures Harmless(r, known) ==>
              (GetNewTxs(r, scan, known, scanBlock, evict).Panicked? <==> RoundPanics(r, derivable, scan, scanBlock))
  {
    hide CollectMain, CollectMempool, MainPanics, MainWanted, GoodRound, Harmless;
    if scanBlock {
      MainPanicsIff(r, derivable, scan, known);
    } else {
      NoMain(r, scan, known);
    }
    var main := CollectMain(r, scan, known, scanBlock);
    if main.Some? {
      MainRoom(r, derivable, scan, known, scanBlock);
      if |main.value.txs| < r.cfg.maxTxs && r.cl.mempool.Some? {
        PoolPanicsIff(r, derivable, known, evict, main.value.txs, |main.value.txs|);
      }
    }
  }

  lemma {:induction false} NoMain(r: Round, scan: int, known: set<Txid>)
    ensures CollectMain(r, scan, known, false) == Some(Main([], scan))
  {
  }

  /** The cache does not matter: if a round completes with an empty cache, it completes with any cache that
      holds stored or underivable ids only and with any evictions, and returns the same transactions and scan
      height. */
  lemma {:induction false} CacheTransparent(r: Round, derivable: Txid -> bool, scan: int, scanBlock: bool,
                                            known: set<Txid>, evict: Evictor, evict2: Evictor)
    requires GoodRound(r, derivable, known) && GetNewTxs(r, scan, {}, scanBlock, evict2).Collected?
    ensures var cached, plain := GetNewTxs(r, scan, known, scanBlock, evict), GetNewTxs(r, scan, {}, scanBlock, evict2);
            cached.Collected? && cached.txs == plain.txs && cached.main == plain.main && cached.scan == plain.scan
  {
    hide GetNewTxs, RoundPanics, Consistent, NoDup;
    RoundPanicsIff(r, derivable, scan, {}, scanBlock, evict2);
    RoundPanicsIff(r, derivable, scan, known, scanBlock, evict);
    CachesAgree(r, derivable, scan, scanBlock, known, evict, {}, evict2);
  }
}
