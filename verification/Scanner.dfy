/** GetNewTxs of scanner/bch.go: which transactions one round puts into a virtual block. */
module Scanner {
  import opened Bytes
  import opened ChainTypes
  import opened Egtx

  const MAX_CACHE_SIZE: nat := 100_000

  /** The node's answers during one round. A missing count, block or mempool is an error that panics; a
      transaction missing from lookup is a failed lookup. */
  datatype Client = Client(count: Option<int>, blocks: map<int, seq<RawTx>>, mempool: Option<seq<Txid>>, lookup: Lookup)

  /** Which cache entry the random eviction removes while position i of the mempool is handled. */
  type Evictor = (nat, set<Txid>) -> Txid

  ghost predicate Picks(evict: Evictor) {
    forall i: nat, s: set<Txid> :: s != {} ==> evict(i, s) in s
  }

  datatype Config = Config(
    name: string, sha: string -> Hash, genesis: int, maxTxs: int, derive: (RawTx, Lookup) -> Outcome)

  /** One round: configuration, node answers, stored ids, and number and hash of the block to fill. */
  datatype Round = Round(cfg: Config, cl: Client, stored: set<Txid>, number: int, hash: Hash)

  datatype Main = Main(txs: seq<Tx>, scan: int)

  datatype Pooled = Pooled(txs: seq<Tx>, known: set<Txid>)

  /** main is how many of the transactions come from main-chain blocks. */
  datatype Collected = Panicked | Collected(txs: seq<Tx>, main: nat, scan: int, known: set<Txid>)

  // ---------------------------------------------------------------- the round as a function

  function CollectBlock(r: Round, known: set<Txid>, txs: seq<RawTx>, acc: seq<Tx>): Option<seq<Tx>>
    decreases |txs|
  {
    if txs == [] then Some(acc)
    else if txs[0].txid in known || txs[0].txid in r.stored then CollectBlock(r, known, txs[1..], acc)
    else
      match r.cfg.derive(txs[0], r.cl.lookup)
      case Panic => None
      case Rejected(_) => CollectBlock(r, known, txs[1..], acc)
      case Derived(d) => CollectBlock(r, known, txs[1..], acc + [MakeTx(txs[0].txid, d, |acc|, r.number, r.hash)])
  }

  function CollectBlocks(r: Round, known: set<Txid>, h: int, newest: int, acc: seq<Tx>): Option<Main>
    decreases newest - h
  {
    if h > newest then Some(Main(acc, h - 1))
    else if h !in r.cl.blocks then None
    else
      var next := CollectBlock(r, known, r.cl.blocks[h], acc);
      if next.None? then None
      else if |next.value| >= r.cfg.maxTxs then Some(Main(next.value, h))
      else CollectBlocks(r, known, h + 1, newest, next.value)
  }

  function AddKnown(known: set<Txid>, t: Txid, evict: Evictor, i: nat): set<Txid> {
    (if |known| > MAX_CACHE_SIZE then known - {evict(i, known)} else known) + {t}
  }

  function CollectMempool(r: Round, pool: seq<Txid>, known: set<Txid>, evict: Evictor, i: nat, acc: seq<Tx>,
                          main: nat): Option<Pooled>
    requires i <= |pool|
    decreases |pool| - i
  {
    if i == |pool| then Some(Pooled(acc, known))
    else
      var t := pool[i];
      if t in known || t in r.stored || t !in r.cl.lookup then CollectMempool(r, pool, known, evict, i + 1, acc, main)
      else
        match r.cfg.derive(r.cl.lookup[t], r.cl.lookup)
        case Panic => None
        case Rejected(_) => CollectMempool(r, pool, AddKnown(known, t, evict, i), evict, i + 1, acc, main)
        case Derived(d) =>
          var acc' := acc + [MakeTx(r.cl.lookup[t].txid, d, main, r.number, r.hash)];
          var known' := AddKnown(known, t, evict, i);
          if |acc'| >= r.cfg.maxTxs then Some(Pooled(acc', known'))
          else CollectMempool(r, pool, known', evict, i + 1, acc', main)
  }

  /** The main-chain part: nothing unless this round scans and there are new blocks. */
  function CollectMain(r: Round, scan: int, known: set<Txid>, scanBlock: bool): Option<Main> {
    if !scanBlock then Some(Main([], scan))
    else if r.cl.count.None? then None
    else if scan >= r.cl.count.value then Some(Main([], scan))
    else CollectBlocks(r, known, scan + 1, r.cl.count.value, [])
  }

  function GetNewTxs(r: Round, scan: int, known: set<Txid>, scanBlock: bool, evict: Evictor): Collected {
    var main := CollectMain(r, scan, known, scanBlock);
    if main.None? then Panicked
    else if |main.value.txs| >= r.cfg.maxTxs then Collected(main.value.txs, |main.value.txs|, main.value.scan, known)
    else if r.cl.mempool.None? then Panicked
    else
      var pooled := CollectMempool(r, r.cl.mempool.value, known, evict, 0, main.value.txs, |main.value.txs|);
      if pooled.None? then Panicked
      else Collected(pooled.value.txs, |main.value.txs|, main.value.scan, pooled.value.known)
  }

  // ---------------------------------------------------------------- what a round should collect

  function Ids(txs: seq<Tx>): (r: seq<Txid>)
    ensures |r| == |txs|
    ensures forall i :: 0 <= i < |txs| ==> r[i] == txs[i].hash
  {
    seq(|txs|, i requires 0 <= i < |txs| => txs[i].hash)
  }

  function BlockIds(txs: seq<RawTx>): (r: seq<Txid>)
    ensures |r| == |txs|
    ensures forall i :: 0 <= i < |txs| ==> r[i] == txs[i].txid
  {
    seq(|txs|, i requires 0 <= i < |txs| => txs[i].txid)
  }

  /** The ids of the blocks at heights lo..hi, in chain order. */
  function FetchedIds(cl: Client, lo: int, hi: int): seq<Txid>
    decreases hi - lo
  {
    if lo > hi then []
    else (if lo in cl.blocks then BlockIds(cl.blocks[lo]) else []) + FetchedIds(cl, lo + 1, hi)
  }

  /** The derivable ids that are not stored yet, in order. */
  ghost function Wanted(ids: seq<Txid>, stored: set<Txid>, derivable: Txid -> bool): seq<Txid> {
    if ids == [] then []
    else (if ids[0] !in stored && derivable(ids[0]) then [ids[0]] else []) + Wanted(ids[1..], stored, derivable)
  }

  /** The mempool ids the node can still look up. */
  ghost function Found(pool: seq<Txid>, lookup: Lookup): seq<Txid> {
    if pool == [] then [] else (if pool[0] in lookup then [pool[0]] else []) + Found(pool[1..], lookup)
  }

  ghost function First(ids: seq<Txid>, n: int): seq<Txid> {
    if n <= 0 then [] else if |ids| <= n then ids else ids[..n]
  }

  ghost predicate NoDup(ids: seq<Txid>) {
    forall i, j :: 0 <= i < j < |ids| ==> ids[i] != ids[j]
  }

  // ---------------------------------------------------------------- assumptions about the node

  /** The outcome agrees with what the id says about derivability, and has at most four topics. */
  ghost predicate Agrees(o: Outcome, derivable: bool) {
    && (o.Derived? ==> derivable && |o.d.topics| <= 4)
    && (o.Rejected? ==> !derivable)
  }

  ghost predicate AgreesAll(cfg: Config, lookup: Lookup, txs: seq<RawTx>, derivable: Txid -> bool) {
    forall k :: 0 <= k < |txs| ==> Agrees(cfg.derive(txs[k], lookup), derivable(txs[k].txid))
  }

  ghost predicate Consistent(cfg: Config, cl: Client, derivable: Txid -> bool) {
    && (forall h :: h in cl.blocks ==> AgreesAll(cfg, cl.lookup, cl.blocks[h], derivable))
    && (forall t :: t in cl.lookup ==>
          cl.lookup[t].txid == t && Agrees(cfg.derive(cl.lookup[t], cl.lookup), derivable(t)))
  }

  /** A cached id is stored or not derivable. */
  ghost predicate CacheOk(known: set<Txid>, stored: set<Txid>, derivable: Txid -> bool) {
    forall t :: t in known ==> t in stored || !derivable(t)
  }

  // ---------------------------------------------------------------- main-chain blocks

  ghost predicate TxShaped(tx: Tx, index: int, number: int, hash: Hash) {
    && tx.index == index && tx.blockNumber == number && tx.blockHash == hash
    && |tx.logs| == 1
    && var l := tx.logs[0];
       && l.txHash == tx.hash && l.txIndex == index && l.blockNumber == number && l.blockHash == hash
       && |l.topics| <= 4
  }

  /** Positions count up through the main-chain transactions and stay there for mempool ones. */
  ghost predicate Shaped(txs: seq<Tx>, main: nat, number: int, hash: Hash) {
    forall p :: 0 <= p < |txs| ==> TxShaped(txs[p], if p < main then p else main, number, hash)
  }

  lemma {:induction false} BlockForm(r: Round, derivable: Txid -> bool, known: set<Txid>, txs: seq<RawTx>, acc: seq<Tx>)
    requires AgreesAll(r.cfg, r.cl.lookup, txs, derivable) && CacheOk(known, r.stored, derivable)
    requires Shaped(acc, |acc|, r.number, r.hash)
    requires CollectBlock(r, known, txs, acc).Some?
    ensures var out := CollectBlock(r, known, txs, acc).value;
            && Ids(out) == Ids(acc) + Wanted(BlockIds(txs), r.stored, derivable)
            && Shaped(out, |out|, r.number, r.hash)
    decreases |txs|
  {
    if txs != [] {
      var rest, t := txs[1..], txs[0].txid;
      WantedOfBlock(txs, r.stored, derivable);
      var o := r.cfg.derive(txs[0], r.cl.lookup);
      assert Agrees(o, derivable(t));
      hide Wanted, BlockIds, AgreesAll, TxShaped;
      if t !in known && t !in r.stored && o.Derived? {
        var tx := MakeTx(t, o.d, |acc|, r.number, r.hash);
        OneMore(acc, tx, r.number, r.hash);
        BlockForm(r, derivable, known, rest, acc + [tx]);
        Associative(Ids(acc), [t], Wanted(BlockIds(rest), r.stored, derivable));
      } else {
        BlockForm(r, derivable, known, rest, acc);
      }
    } else {
      assert Wanted(BlockIds(txs), r.stored, derivable) == [];
    }
  }

  lemma {:induction false} WantedOfBlock(txs: seq<RawTx>, stored: set<Txid>, derivable: Txid -> bool)
    requires txs != []
    ensures Wanted(BlockIds(txs), stored, derivable)
         == if txs[0].txid !in stored && derivable(txs[0].txid)
            then [txs[0].txid] + Wanted(BlockIds(txs[1..]), stored, derivable)
            else Wanted(BlockIds(txs[1..]), stored, derivable)
  {
    assert BlockIds(txs)[1..] == BlockIds(txs[1..]);
  }

  lemma {:induction false} OneMore(acc: seq<Tx>, tx: Tx, number: int, hash: Hash)
    requires Shaped(acc, |acc|, number, hash) && TxShaped(tx, |acc|, number, hash)
    ensures Shaped(acc + [tx], |acc + [tx]|, number, hash) && Ids(acc + [tx]) == Ids(acc) + [tx.hash]
  {
    hide TxShaped;
  }

  lemma {:induction false} WantedConcat(a: seq<Txid>, b: seq<Txid>, stored: set<Txid>, derivable: Txid -> bool)
    ensures Wanted(a + b, stored, derivable) == Wanted(a, stored, derivable) + Wanted(b, stored, derivable)
  {
    if a == [] {
      assert a + b == b;
    } else {
      var rest := a[1..];
      WantedConcat(rest, b, stored, derivable);
      assert (a + b)[1..] == rest + b && (a + b)[0] == a[0];
      var head := if a[0] !in stored && derivable(a[0]) then [a[0]] else [];
      assert Wanted(a + b, stored, derivable) == head + Wanted(rest + b, stored, derivable);
    }
  }

  /** What the block at lo contributes to the blocks lo..hi. */
  lemma {:induction false} WantedFrom(cl: Client, lo: int, hi: int, stored: set<Txid>, derivable: Txid -> bool)
    requires lo <= hi && lo in cl.blocks
    ensures Wanted(FetchedIds(cl, lo, hi), stored, derivable)
         == Wanted(BlockIds(cl.blocks[lo]), stored, derivable) + Wanted(FetchedIds(cl, lo + 1, hi), stored, derivable)
  {
    WantedConcat(BlockIds(cl.blocks[lo]), FetchedIds(cl, lo + 1, hi), stored, derivable);
  }

  /** Heights are scanned upwards without a gap, up to the newest one unless the block is full. */
  lemma {:induction false} BlocksScan(r: Round, known: set<Txid>, h: int, newest: int, acc: seq<Tx>)
    requires h <= newest + 1 && CollectBlocks(r, known, h, newest, acc).Some?
    ensures var out := CollectBlocks(r, known, h, newest, acc).value;
            && h - 1 <= out.scan <= newest
            && (forall k :: h <= k <= out.scan ==> k in r.cl.blocks)
            && (out.scan < newest ==> |out.txs| >= r.cfg.maxTxs)
    decreases newest - h
  {
    hide CollectBlock;
    if h <= newest {
      var next := CollectBlock(r, known, r.cl.blocks[h], acc).value;
      if |next| < r.cfg.maxTxs {
        BlocksScan(r, known, h + 1, newest, next);
      }
    }
  }

  lemma {:induction false} BlocksForm(r: Round, derivable: Txid -> bool, known: set<Txid>, h: int, newest: int,
                                      acc: seq<Tx>)
    requires Consistent(r.cfg, r.cl, derivable) && CacheOk(known, r.stored, derivable)
    requires Shaped(acc, |acc|, r.number, r.hash) && h <= newest + 1
    requires CollectBlocks(r, known, h, newest, acc).Some?
    ensures var out := CollectBlocks(r, known, h, newest, acc).value;
            && Ids(out.txs) == Ids(acc) + Wanted(FetchedIds(r.cl, h, out.scan), r.stored, derivable)
            && Shaped(out.txs, |out.txs|, r.number, r.hash)
    decreases newest - h
  {
    assert FetchedIds(r.cl, h, h - 1) == [] && FetchedIds(r.cl, h + 1, h) == []
           && Wanted([], r.stored, derivable) == [];
    assert forall k :: k in r.cl.blocks ==> AgreesAll(r.cfg, r.cl.lookup, r.cl.blocks[k], derivable);
    hide CollectBlock, FetchedIds, Wanted, Shaped, Consistent, CacheOk, AgreesAll, Ids, BlockIds;
    if h <= newest {
      var next := CollectBlock(r, known, r.cl.blocks[h], acc).value;
      BlockForm(r, derivable, known, r.cl.blocks[h], acc);
      WantedFrom(r.cl, h, h, r.stored, derivable);
      if |next| < r.cfg.maxTxs {
        BlocksForm(r, derivable, known, h + 1, newest, next);
        BlocksScan(r, known, h + 1, newest, next);
        var scan := CollectBlocks(r, known, h, newest, acc).value.scan;
        WantedFrom(r.cl, h, scan, r.stored, derivable);
        Associative(Ids(acc), Wanted(BlockIds(r.cl.blocks[h]), r.stored, derivable),
                    Wanted(FetchedIds(r.cl, h + 1, scan), r.stored, derivable));
      }
    }
  }

  /** The last scanned block is only reached while the blocks before it left room. */
  lemma {:induction false} BlocksBeforeLast(r: Round, derivable: Txid -> bool, known: set<Txid>, h: int, newest: int,
                                            acc: seq<Tx>)
    requires Consistent(r.cfg, r.cl, derivable) && CacheOk(known, r.stored, derivable)
    requires Shaped(acc, |acc|, r.number, r.hash) && h <= newest + 1 && |acc| < r.cfg.maxTxs
    requires CollectBlocks(r, known, h, newest, acc).Some?
    ensures var scan := CollectBlocks(r, known, h, newest, acc).value.scan;
            |acc| + |Wanted(FetchedIds(r.cl, h, scan - 1), r.stored, derivable)| < r.cfg.maxTxs
    decreases newest - h
  {
    hide CollectBlock, FetchedIds, Wanted, Shaped, Consistent, CacheOk, AgreesAll, Ids, BlockIds;
    NothingFetched(r, derivable, h);
    if h <= newest {
      var next := CollectBlock(r, known, r.cl.blocks[h], acc).value;
      BlockAgrees(r, derivable, h);
      BlockCount(r, derivable, known, r.cl.blocks[h], acc);
      if |next| < r.cfg.maxTxs {
        BlocksBeforeLast(r, derivable, known, h + 1, newest, next);
        BlocksScan(r, known, h + 1, newest, next);
        var scan := CollectBlocks(r, known, h, newest, acc).value.scan;
        assert scan == CollectBlocks(r, known, h + 1, newest, next).value.scan;
        hide CollectBlocks;
        if h < scan {
          WantedFrom(r.cl, h, scan - 1, r.stored, derivable);
        }
      }
    }
  }

  lemma {:induction false} BlockAgrees(r: Round, derivable: Txid -> bool, h: int)
    requires Consistent(r.cfg, r.cl, derivable) && h in r.cl.blocks
    ensures AgreesAll(r.cfg, r.cl.lookup, r.cl.blocks[h], derivable)
  {
  }

  lemma {:induction false} BlockCount(r: Round, derivable: Txid -> bool, known: set<Txid>, txs: seq<RawTx>,
                                      acc: seq<Tx>)
    requires AgreesAll(r.cfg, r.cl.lookup, txs, derivable) && CacheOk(known, r.stored, derivable)
    requires Shaped(acc, |acc|, r.number, r.hash)
    requires CollectBlock(r, known, txs, acc).Some?
    ensures var out := CollectBlock(r, known, txs, acc).value;
            |out| == |acc| + |Wanted(BlockIds(txs), r.stored, derivable)| && Shaped(out, |out|, r.number, r.hash)
  {
    BlockForm(r, derivable, known, txs, acc);
    CountOfBlock(CollectBlock(r, known, txs, acc).value, acc, Wanted(BlockIds(txs), r.stored, derivable));
  }

  lemma {:induction false} NothingFetched(r: Round, derivable: Txid -> bool, h: int)
    ensures Wanted(FetchedIds(r.cl, h, h - 1), r.stored, derivable) == []
    ensures Wanted(FetchedIds(r.cl, h, h - 2), r.stored, derivable) == []
  {
  }

  lemma {:induction false} CountOfBlock(next: seq<Tx>, acc: seq<Tx>, ids: seq<Txid>)
    requires Ids(next) == Ids(acc) + ids
    ensures |next| == |acc| + |ids|
  {
    assert |Ids(next)| == |Ids(acc)| + |ids|;
  }

  // ---------------------------------------------------------------- mempool

  /** What is cached of the mempool positions still to come is stored or not derivable. */
  ghost predicate PoolOk(pool: seq<Txid>, i: nat, known: set<Txid>, stored: set<Txid>, derivable: Txid -> bool) {
    forall j :: i <= j < |pool| && pool[j] in known ==> pool[j] in stored || !derivable(pool[j])
  }

  lemma {:induction false} PoolOkNext(pool: seq<Txid>, i: nat, known: set<Txid>, evict: Evictor, stored: set<Txid>,
                                      derivable: Txid -> bool)
    requires i < |pool| && NoDup(pool) && PoolOk(pool, i, known, stored, derivable)
    ensures PoolOk(pool, i + 1, known, stored, derivable)
    ensures PoolOk(pool, i + 1, AddKnown(known, pool[i], evict, i), stored, derivable)
  {
  }

  /** The ids position i of the mempool can contribute, and those after it. */
  ghost function PoolWanted(r: Round, pool: seq<Txid>, i: nat, derivable: Txid -> bool): seq<Txid>
    requires i <= |pool|
  {
    Wanted(Found(pool[i..], r.cl.lookup), r.stored, derivable)
  }

  lemma {:induction false} PoolWantedNext(r: Round, pool: seq<Txid>, i: nat, derivable: Txid -> bool)
    requires i < |pool|
    ensures var t := pool[i];
            PoolWanted(r, pool, i, derivable)
            == if t in r.cl.lookup && t !in r.stored && derivable(t) then [t] + PoolWanted(r, pool, i + 1, derivable)
               else PoolWanted(r, pool, i + 1, derivable)
  {
    assert pool[i..][1..] == pool[i + 1..];
    var rest := Found(pool[i + 1..], r.cl.lookup);
    assert Found(pool[i..], r.cl.lookup) == (if pool[i] in r.cl.lookup then [pool[i]] else []) + rest;
    assert [] + rest == rest;
    if pool[i] in r.cl.lookup {
      WantedConcat([pool[i]], rest, r.stored, derivable);
      assert Wanted([pool[i]][1..], r.stored, derivable) == [];
    }
  }

  lemma FirstNext(t: Txid, rest: seq<Txid>, n: int)
    requires n >= 1
    ensures First([t] + rest, n) == [t] + First(rest, n - 1)
  {
  }

  /** The mempool part of a round: the derivable, not yet stored ids it can look up, as many as fit. */
  lemma {:induction false} PoolForm(r: Round, derivable: Txid -> bool, pool: seq<Txid>, known: set<Txid>,
                                    evict: Evictor, i: nat, acc: seq<Tx>, main: nat)
    requires Consistent(r.cfg, r.cl, derivable) && NoDup(pool)
    requires i <= |pool| && PoolOk(pool, i, known, r.stored, derivable) && |acc| < r.cfg.maxTxs
    requires CollectMempool(r, pool, known, evict, i, acc, main).Some?
    ensures Ids(CollectMempool(r, pool, known, evict, i, acc, main).value.txs)
         == Ids(acc) + First(PoolWanted(r, pool, i, derivable), r.cfg.maxTxs - |acc|)
    decreases |pool| - i
  {
    if i == |pool| {
      assert pool[i..] == [];
    } else {
      PoolWantedNext(r, pool, i, derivable);
      PoolOkNext(pool, i, known, evict, r.stored, derivable);
      PoolFormStep(r, derivable, pool, known, evict, i, acc, main);
    }
  }

  lemma {:induction false} PoolFormStep(r: Round, derivable: Txid -> bool, pool: seq<Txid>, known: set<Txid>,
                                        evict: Evictor, i: nat, acc: seq<Tx>, main: nat)
    requires Consistent(r.cfg, r.cl, derivable) && NoDup(pool) && i < |pool| && |acc| < r.cfg.maxTxs
    requires PoolOk(pool, i, known, r.stored, derivable)
    requires PoolOk(pool, i + 1, known, r.stored, derivable)
    requires PoolOk(pool, i + 1, AddKnown(known, pool[i], evict, i), r.stored, derivable)
    requires PoolWanted(r, pool, i, derivable)
             == if pool[i] in r.cl.lookup && pool[i] !in r.stored && derivable(pool[i])
                then [pool[i]] + PoolWanted(r, pool, i + 1, derivable)
                else PoolWanted(r, pool, i + 1, derivable)
    requires CollectMempool(r, pool, known, evict, i, acc, main).Some?
    ensures Ids(CollectMempool(r, pool, known, evict, i, acc, main).value.txs)
         == Ids(acc) + First(PoolWanted(r, pool, i, derivable), r.cfg.maxTxs - |acc|)
    decreases |pool| - i, 0
  {
    var t := pool[i];
    assert t in known ==> t in r.stored || !derivable(t);
    assert t in r.cl.lookup ==>
           r.cl.lookup[t].txid == t && Agrees(r.cfg.derive(r.cl.lookup[t], r.cl.lookup), derivable(t));
    hide PoolWanted, First, NoDup, Ids, PoolOk, Consistent, AddKnown, MakeTx;
    if t in known || t in r.stored || t !in r.cl.lookup {
      PoolForm(r, derivable, pool, known, evict, i + 1, acc, main);
    } else {
      var o, known' := r.cfg.derive(r.cl.lookup[t], r.cl.lookup), AddKnown(known, t, evict, i);
      if o.Rejected? {
        PoolForm(r, derivable, pool, known', evict, i + 1, acc, main);
      } else {
        var acc' := acc + [MakeTx(t, o.d, main, r.number, r.hash)];
        if |acc'| < r.cfg.maxTxs {
          PoolForm(r, derivable, pool, known', evict, i + 1, acc', main);
        }
        PoolFormDerived(r, derivable, pool, known, evict, i, acc, main, o.d);
      }
    }
  }

  lemma {:induction false} PoolFormDerived(r: Round, derivable: Txid -> bool, pool: seq<Txid>, known: set<Txid>,
                                           evict: Evictor, i: nat, acc: seq<Tx>, main: nat, d: Derivation)
    requires i < |pool| && |acc| < r.cfg.maxTxs && pool[i] !in known && pool[i] !in r.stored && pool[i] in r.cl.lookup
    requires r.cl.lookup[pool[i]].txid == pool[i] && r.cfg.derive(r.cl.lookup[pool[i]], r.cl.lookup) == Derived(d)
    requires derivable(pool[i]) && CollectMempool(r, pool, known, evict, i, acc, main).Some?
    requires var acc' := acc + [MakeTx(pool[i], d, main, r.number, r.hash)];
             |acc'| < r.cfg.maxTxs ==>
               Ids(CollectMempool(r, pool, AddKnown(known, pool[i], evict, i), evict, i + 1, acc', main).value.txs)
               == Ids(acc') + First(PoolWanted(r, pool, i + 1, derivable), r.cfg.maxTxs - |acc'|)
    ensures Ids(CollectMempool(r, pool, known, evict, i, acc, main).value.txs)
         == Ids(acc) + First(PoolWanted(r, pool, i, derivable), r.cfg.maxTxs - |acc|)
  {
    var rest := PoolWanted(r, pool, i + 1, derivable);
    PoolWantedNext(r, pool, i, derivable);
    hide PoolWanted;
    FirstNext(pool[i], rest, r.cfg.maxTxs - |acc|);
    assert Ids(acc + [MakeTx(pool[i], d, main, r.number, r.hash)]) == Ids(acc) + [pool[i]];
    Associative(Ids(acc), [pool[i]], First(rest, r.cfg.maxTxs - |acc| - 1));
  }

  lemma {:induction false} PoolShape(r: Round, derivable: Txid -> bool, pool: seq<Txid>, known: set<Txid>,
                                     evict: Evictor, i: nat, acc: seq<Tx>, main: nat)
    requires Consistent(r.cfg, r.cl, derivable) && i <= |pool|
    requires main <= |acc| && Shaped(acc, main, r.number, r.hash)
    requires CollectMempool(r, pool, known, evict, i, acc, main).Some?
    ensures var out := CollectMempool(r, pool, known, evict, i, acc, main).value.txs;
            acc <= out && Shaped(out, main, r.number, r.hash)
    decreases |pool| - i
  {
    if i < |pool| {
      var t := pool[i];
      if t in known || t in r.stored || t !in r.cl.lookup {
        PoolShape(r, derivable, pool, known, evict, i + 1, acc, main);
      } else {
        var o, known' := r.cfg.derive(r.cl.lookup[t], r.cl.lookup), AddKnown(known, t, evict, i);
        assert r.cl.lookup[t].txid == t && Agrees(o, derivable(t));
        if o.Rejected? {
          PoolShape(r, derivable, pool, known', evict, i + 1, acc, main);
        } else {
          var acc' := acc + [MakeTx(t, o.d, main, r.number, r.hash)];
          assert Shaped(acc', main, r.number, r.hash);
          if |acc'| < r.cfg.maxTxs {
            PoolShape(r, derivable, pool, known', evict, i + 1, acc', main);
          }
        }
      }
    }
  }

  /** Only ids that were just collected or do not derive enter the cache, never a failed lookup. */
  lemma {:induction false} PoolCache(r: Round, derivable: Txid -> bool, pool: seq<Txid>, known: set<Txid>,
                                     evict: Evictor, i: nat, acc: seq<Tx>, main: nat)
    requires Consistent(r.cfg, r.cl, derivable) && i <= |pool| && Picks(evict)
    requires CollectMempool(r, pool, known, evict, i, acc, main).Some?
    ensures var out := CollectMempool(r, pool, known, evict, i, acc, main).value;
            acc <= out.txs && OnlyNew(r, derivable, known, out.known, out.txs)
    decreases |pool| - i
  {
    if i < |pool| {
      var t := pool[i];
      if t in known || t in r.stored || t !in r.cl.lookup {
        PoolCache(r, derivable, pool, known, evict, i + 1, acc, main);
      } else {
        var o, known' := r.cfg.derive(r.cl.lookup[t], r.cl.lookup), AddKnown(known, t, evict, i);
        assert r.cl.lookup[t].txid == t && Agrees(o, derivable(t));
        AddKnownBound(known, t, evict, i);
        var out := CollectMempool(r, pool, known, evict, i, acc, main).value;
        if o.Rejected? {
          PoolCache(r, derivable, pool, known', evict, i + 1, acc, main);
        } else {
          var acc' := acc + [MakeTx(t, o.d, main, r.number, r.hash)];
          if |acc'| < r.cfg.maxTxs {
            PoolCache(r, derivable, pool, known', evict, i + 1, acc', main);
          }
          assert acc' <= out.txs && Ids(out.txs)[|acc|] == out.txs[|acc|].hash == t;
        }
        hide CollectMempool, AddKnown, MakeTx, Consistent;
        OnlyNewAfter(r, derivable, known, known', out.known, out.txs, t);
      }
    }
  }

  ghost predicate OnlyNew(r: Round, derivable: Txid -> bool, known: set<Txid>, known': set<Txid>, txs: seq<Tx>) {
    forall t :: t in known' && t !in known ==> t in r.cl.lookup && (t in Ids(txs) || !derivable(t))
  }

  lemma {:induction false} OnlyNewAfter(r: Round, derivable: Txid -> bool, known: set<Txid>, mid: set<Txid>,
                                        known': set<Txid>, txs: seq<Tx>, t: Txid)
    requires mid <= known + {t} && t in r.cl.lookup && (t in Ids(txs) || !derivable(t))
    requires known' == mid || OnlyNew(r, derivable, mid, known', txs)
    ensures OnlyNew(r, derivable, known, known', txs)
  {
    hide Ids;
  }

  /** The cache stays within its limit plus one. */
  lemma {:induction false} PoolBound(r: Round, pool: seq<Txid>, known: set<Txid>, evict: Evictor, i: nat,
                                     acc: seq<Tx>, main: nat)
    requires i <= |pool| && Picks(evict) && |known| <= MAX_CACHE_SIZE + 1
    requires CollectMempool(r, pool, known, evict, i, acc, main).Some?
    ensures |CollectMempool(r, pool, known, evict, i, acc, main).value.known| <= MAX_CACHE_SIZE + 1
    decreases |pool| - i
  {
    if i < |pool| {
      var t := pool[i];
      AddKnownBound(known, t, evict, i);
      hide AddKnown, MakeTx;
      if t in known || t in r.stored || t !in r.cl.lookup {
        PoolBound(r, pool, known, evict, i + 1, acc, main);
      } else {
        var o, known' := r.cfg.derive(r.cl.lookup[t], r.cl.lookup), AddKnown(known, t, evict, i);
        if o.Rejected? {
          PoolBound(r, pool, known', evict, i + 1, acc, main);
        } else {
          var acc' := acc + [MakeTx(r.cl.lookup[t].txid, o.d, main, r.number, r.hash)];
          if |acc'| < r.cfg.maxTxs {
            PoolBound(r, pool, known', evict, i + 1, acc', main);
          }
        }
      }
    }
  }

  lemma {:induction false} AddKnownBound(known: set<Txid>, t: Txid, evict: Evictor, i: nat)
    requires Picks(evict)
    ensures AddKnown(known, t, evict, i) <= known + {t}
    ensures |known| <= MAX_CACHE_SIZE + 1 ==> |AddKnown(known, t, evict, i)| <= MAX_CACHE_SIZE + 1
  {
    if |known| > MAX_CACHE_SIZE {
      var left := known - {evict(i, known)};
      assert |left| == |known| - 1;
      assert |left + {t}| <= |left| + 1;
    } else {
      assert |known + {t}| <= |known| + 1;
    }
  }

  /** Two caches that only hold stored or underivable ids lead to the same transactions. */
  lemma {:induction false} PoolSame(r: Round, derivable: Txid -> bool, pool: seq<Txid>, i: nat, acc: seq<Tx>, main: nat,
                                    known: set<Txid>, evict: Evictor, known2: set<Txid>, evict2: Evictor)
    requires Consistent(r.cfg, r.cl, derivable) && NoDup(pool) && i <= |pool|
    requires PoolOk(pool, i, known, r.stored, derivable) && PoolOk(pool, i, known2, r.stored, derivable)
    requires CollectMempool(r, pool, known, evict, i, acc, main).Some?
    requires CollectMempool(r, pool, known2, evict2, i, acc, main).Some?
    ensures CollectMempool(r, pool, known, evict, i, acc, main).value.txs
         == CollectMempool(r, pool, known2, evict2, i, acc, main).value.txs
    decreases |pool| - i
  {
    if i < |pool| {
      var t := pool[i];
      PoolOkNext(pool, i, known, evict, r.stored, derivable);
      PoolOkNext(pool, i, known2, evict2, r.stored, derivable);
      if t in r.stored || t !in r.cl.lookup {
        PoolSame(r, derivable, pool, i + 1, acc, main, known, evict, known2, evict2);
      } else {
        var o := r.cfg.derive(r.cl.lookup[t], r.cl.lookup);
        assert r.cl.lookup[t].txid == t && Agrees(o, derivable(t));
        var a := if t in known then known else AddKnown(known, t, evict, i);
        var b := if t in known2 then known2 else AddKnown(known2, t, evict2, i);
        if o.Derived? {
          var acc' := acc + [MakeTx(t, o.d, main, r.number, r.hash)];
          if |acc'| < r.cfg.maxTxs {
            PoolSame(r, derivable, pool, i + 1, acc', main, a, evict, b, evict2);
          }
        } else {
          PoolSame(r, derivable, pool, i + 1, acc, main, a, evict, b, evict2);
        }
      }
    }
  }

  lemma {:induction false} BlockSame(r: Round, derivable: Txid -> bool, txs: seq<RawTx>, acc: seq<Tx>,
                                     known: set<Txid>, known2: set<Txid>)
    requires AgreesAll(r.cfg, r.cl.lookup, txs, derivable)
    requires CacheOk(known, r.stored, derivable) && CacheOk(known2, r.stored, derivable)
    requires CollectBlock(r, known, txs, acc).Some? && CollectBlock(r, known2, txs, acc).Some?
    ensures CollectBlock(r, known, txs, acc) == CollectBlock(r, known2, txs, acc)
    decreases |txs|
  {
    if txs != [] {
      var o := r.cfg.derive(txs[0], r.cl.lookup);
      assert Agrees(o, derivable(txs[0].txid));
      if txs[0].txid !in r.stored && o.Derived? {
        BlockSame(r, derivable, txs[1..], acc + [MakeTx(txs[0].txid, o.d, |acc|, r.number, r.hash)], known, known2);
      } else {
        BlockSame(r, derivable, txs[1..], acc, known, known2);
      }
    }
  }

  lemma {:induction false} BlocksSame(r: Round, derivable: Txid -> bool, h: int, newest: int, acc: seq<Tx>,
                                      known: set<Txid>, known2: set<Txid>)
    requires Consistent(r.cfg, r.cl, derivable)
    requires CacheOk(known, r.stored, derivable) && CacheOk(known2, r.stored, derivable)
    requires CollectBlocks(r, known, h, newest, acc).Some? && CollectBlocks(r, known2, h, newest, acc).Some?
    ensures CollectBlocks(r, known, h, newest, acc) == CollectBlocks(r, known2, h, newest, acc)
    decreases newest - h
  {
    if h <= newest {
      BlockSame(r, derivable, r.cl.blocks[h], acc, known, known2);
      var next := CollectBlock(r, known, r.cl.blocks[h], acc).value;
      hide CollectBlock;
      if |next| < r.cfg.maxTxs {
        BlocksSame(r, derivable, h + 1, newest, next, known, known2);
      }
    }
  }

  /** Two rounds that complete with caches of stored or underivable ids return the same transactions and
      scan height, whatever is evicted. */
  lemma {:induction false} CachesAgree(r: Round, derivable: Txid -> bool, scan: int, scanBlock: bool,
                                       known: set<Txid>, evict: Evictor, known2: set<Txid>, evict2: Evictor)
    requires Consistent(r.cfg, r.cl, derivable) && (r.cl.mempool.Some? ==> NoDup(r.cl.mempool.value))
    requires CacheOk(known, r.stored, derivable) && CacheOk(known2, r.stored, derivable)
    requires GetNewTxs(r, scan, known, scanBlock, evict).Collected?
    requires GetNewTxs(r, scan, known2, scanBlock, evict2).Collected?
    ensures var a, b := GetNewTxs(r, scan, known, scanBlock, evict), GetNewTxs(r, scan, known2, scanBlock, evict2);
            a.txs == b.txs && a.main == b.main && a.scan == b.scan
  {
    hide CollectBlocks, CollectMempool;
    if scanBlock && scan < r.cl.count.value {
      BlocksSame(r, derivable, scan + 1, r.cl.count.value, [], known, known2);
    }
    var main := CollectMain(r, scan, known, scanBlock).value.txs;
    if |main| < r.cfg.maxTxs {
      PoolSame(r, derivable, r.cl.mempool.value, 0, main, |main|, known, evict, known2, evict2);
    }
  }

  // ---------------------------------------------------------------- the round as a whole

  ghost function Pool(cl: Client): seq<Txid> {
    if cl.mempool.None? then [] else cl.mempool.value
  }

  /** The ids a round that scans heights lo..hi should collect. */
  ghost function RoundIds(r: Round, derivable: Txid -> bool, lo: int, hi: int): seq<Txid> {
    var main := Wanted(FetchedIds(r.cl, lo, hi), r.stored, derivable);
    main + First(PoolWanted(r, Pool(r.cl), 0, derivable), r.cfg.maxTxs - |main|)
  }

  ghost predicate GoodRound(r: Round, derivable: Txid -> bool, known: set<Txid>) {
    Consistent(r.cfg, r.cl, derivable) && NoDup(Pool(r.cl)) && CacheOk(known, r.stored, derivable)
  }

  /** The main-chain transactions are the wanted ids of consecutive blocks from the last scanned height on. */
  lemma {:induction false} MainForm(r: Round, derivable: Txid -> bool, scan: int, known: set<Txid>, scanBlock: bool)
    requires GoodRound(r, derivable, known) && CollectMain(r, scan, known, scanBlock).Some?
    ensures var m := CollectMain(r, scan, known, scanBlock).value;
            && scan <= m.scan && (scanBlock || m.scan == scan)
            && (forall k :: scan < k <= m.scan ==> k in r.cl.blocks)
            && Ids(m.txs) == Wanted(FetchedIds(r.cl, scan + 1, m.scan), r.stored, derivable)
            && Shaped(m.txs, |m.txs|, r.number, r.hash)
  {
    if scanBlock && scan < r.cl.count.value {
      BlocksScan(r, known, scan + 1, r.cl.count.value, []);
      BlocksForm(r, derivable, known, scan + 1, r.cl.count.value, []);
    }
  }

  /** A completed round collects exactly the wanted ids of the blocks it scanned, then mempool ids as long
      as there is room; positions, number and hash are those of the block being filled. */
  lemma {:induction false} RoundForm(r: Round, derivable: Txid -> bool, scan: int, known: set<Txid>, scanBlock: bool,
                                     evict: Evictor)
    requires GoodRound(r, derivable, known) && GetNewTxs(r, scan, known, scanBlock, evict).Collected?
    ensures var c := GetNewTxs(r, scan, known, scanBlock, evict);
            && scan <= c.scan && (scanBlock || c.scan == scan)
            && (forall k :: scan < k <= c.scan ==> k in r.cl.blocks)
            && c.main == |Wanted(FetchedIds(r.cl, scan + 1, c.scan), r.stored, derivable)|
            && Ids(c.txs) == RoundIds(r, derivable, scan + 1, c.scan)
            && Shaped(c.txs, c.main, r.number, r.hash)
  {
    var m := CollectMain(r, scan, known, scanBlock).value;
    MainForm(r, derivable, scan, known, scanBlock);
    hide CollectMain, CollectMempool, Shaped, Wanted, FetchedIds, PoolWanted;
    if |m.txs| < r.cfg.maxTxs {
      PoolForm(r, derivable, r.cl.mempool.value, known, evict, 0, m.txs, |m.txs|);
      PoolShape(r, derivable, r.cl.mempool.value, known, evict, 0, m.txs, |m.txs|);
    }
  }

  /** After a round the cache holds, besides what it held before, only collected or underivable ids it
      could look up, and never more than its limit plus one. */
  lemma {:induction false} RoundCache(r: Round, derivable: Txid -> bool, scan: int, known: set<Txid>, scanBlock: bool,
                                      evict: Evictor)
    requires Consistent(r.cfg, r.cl, derivable) && Picks(evict)
             && GetNewTxs(r, scan, known, scanBlock, evict).Collected?
    ensures var c := GetNewTxs(r, scan, known, scanBlock, evict);
            && (forall t :: t in c.known && t !in known ==> t in r.cl.lookup && (t in Ids(c.txs) || !derivable(t)))
            && (|known| <= MAX_CACHE_SIZE + 1 ==> |c.known| <= MAX_CACHE_SIZE + 1)
  {
    var m := CollectMain(r, scan, known, scanBlock).value;
    hide CollectMain, CollectMempool;
    if |m.txs| < r.cfg.maxTxs {
      PoolCache(r, derivable, r.cl.mempool.value, known, evict, 0, m.txs, |m.txs|);
      if |known| <= MAX_CACHE_SIZE + 1 {
        PoolBound(r, r.cl.mempool.value, known, evict, 0, m.txs, |m.txs|);
      }
    }
  }

  /** Batch bound: a block larger than the limit holds main-chain transactions only, and without those of
      the last scanned block it is below the limit. */
  lemma {:induction false} BatchBound(r: Round, derivable: Txid -> bool, scan: int, known: set<Txid>, scanBlock: bool,
                                      evict: Evictor)
    requires GoodRound(r, derivable, known) && r.cfg.maxTxs >= 1
    requires GetNewTxs(r, scan, known, scanBlock, evict).Collected?
    requires |GetNewTxs(r, scan, known, scanBlock, evict).txs| > r.cfg.maxTxs
    ensures var c := GetNewTxs(r, scan, known, scanBlock, evict);
            && c.main == |c.txs| && scan < c.scan
            && |Wanted(FetchedIds(r.cl, scan + 1, c.scan - 1), r.stored, derivable)| < r.cfg.maxTxs
  {
    hide GetNewTxs, CollectMempool, CollectBlocks, Wanted, FetchedIds, PoolWanted, Shaped, GoodRound, Ids;
    RoundForm(r, derivable, scan, known, scanBlock, evict);
    OverflowIsMain(r, scan, known, scanBlock, evict);
    assert GetNewTxs(r, scan, known, scanBlock, evict).main > 0;
    LastBlockOverflows(r, derivable, scan, known, scanBlock);
  }

  lemma {:induction false} OverflowIsMain(r: Round, scan: int, known: set<Txid>, scanBlock: bool, evict: Evictor)
    requires GetNewTxs(r, scan, known, scanBlock, evict).Collected? && r.cfg.maxTxs >= 1
    requires |GetNewTxs(r, scan, known, scanBlock, evict).txs| > r.cfg.maxTxs
    ensures var c, m := GetNewTxs(r, scan, known, scanBlock, evict), CollectMain(r, scan, known, scanBlock);
            m.Some? && c.main == |c.txs| == |m.value.txs| && c.scan == m.value.scan
  {
    hide CollectMain, CollectMempool;
    var m := CollectMain(r, scan, known, scanBlock).value;
    if |m.txs| < r.cfg.maxTxs {
      PoolWithinLimit(r, r.cl.mempool.value, known, evict, 0, m.txs, |m.txs|);
    }
  }

  lemma {:induction false} PoolWithinLimit(r: Round, pool: seq<Txid>, known: set<Txid>, evict: Evictor, i: nat,
                                           acc: seq<Tx>, main: nat)
    requires i <= |pool| && |acc| < r.cfg.maxTxs && CollectMempool(r, pool, known, evict, i, acc, main).Some?
    ensures |CollectMempool(r, pool, known, evict, i, acc, main).value.txs| <= r.cfg.maxTxs
    decreases |pool| - i
  {
    if i < |pool| {
      var t := pool[i];
      if t in known || t in r.stored || t !in r.cl.lookup {
        PoolWithinLimit(r, pool, known, evict, i + 1, acc, main);
      } else {
        var o, known' := r.cfg.derive(r.cl.lookup[t], r.cl.lookup), AddKnown(known, t, evict, i);
        if o.Rejected? {
          PoolWithinLimit(r, pool, known', evict, i + 1, acc, main);
        } else if o.Derived? {
          var acc' := acc + [MakeTx(r.cl.lookup[t].txid, o.d, main, r.number, r.hash)];
          if |acc'| < r.cfg.maxTxs {
            PoolWithinLimit(r, pool, known', evict, i + 1, acc', main);
          }
        }
      }
    }
  }

  lemma {:induction false} LastBlockOverflows(r: Round, derivable: Txid -> bool, scan: int, known: set<Txid>,
                                              scanBlock: bool)
    requires GoodRound(r, derivable, known) && r.cfg.maxTxs >= 1 && CollectMain(r, scan, known, scanBlock).Some?
    requires |CollectMain(r, scan, known, scanBlock).value.txs| > 0
    ensures var m := CollectMain(r, scan, known, scanBlock).value;
            scan < m.scan && |Wanted(FetchedIds(r.cl, scan + 1, m.scan - 1), r.stored, derivable)| < r.cfg.maxTxs
  {
    hide CollectBlocks, Wanted;
    MainForm(r, derivable, scan, known, scanBlock);
    var m := CollectMain(r, scan, known, scanBlock).value;
    BlocksBeforeLast(r, derivable, known, scan + 1, r.cl.count.value, []);
    if m.scan == scan {
      EmptyRange(r, derivable, scan);
      CountOfBlock(m.txs, [], []);
    }
  }

  lemma {:induction false} EmptyRange(r: Round, derivable: Txid -> bool, scan: int)
    ensures Wanted(FetchedIds(r.cl, scan + 1, scan), r.stored, derivable) == []
  {
  }
}
