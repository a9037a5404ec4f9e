/** Where the transactions of a round come from and what they carry (scanner/bch.go). */
module Origins {
  import opened Bytes
  import opened ChainTypes
  import opened Egtx
  import opened Scanner
  import LogAbi

  /** The stored transaction carries this outcome: its sender and recipient, and one log with its contract address,
      its topics and its packed content. */
  ghost predicate Conveys(o: Outcome, tx: Tx) {
    && o.Derived? && tx.from == o.d.from && tx.to == o.d.to && |tx.logs| == 1
    && var l := tx.logs[0];
       l.address == o.d.contract && l.topics == o.d.topics && l.data == LogAbi.Pack(o.d.content)
  }

  /** It is one of these raw transactions, derived. */
  ghost predicate DerivedFrom(cfg: Config, lookup: Lookup, raws: seq<RawTx>, tx: Tx) {
    exists i :: 0 <= i < |raws| && raws[i].txid == tx.hash && Conveys(cfg.derive(raws[i], lookup), tx)
  }

  /** It comes from a block the node served at one of these heights. */
  ghost predicate FromBlocks(cfg: Config, cl: Client, lo: int, hi: int, tx: Tx) {
    exists h :: lo <= h <= hi && h in cl.blocks && DerivedFrom(cfg, cl.lookup, cl.blocks[h], tx)
  }

  /** It comes from the mempool, by lookup. */
  ghost predicate FromPool(cfg: Config, cl: Client, tx: Tx) {
    exists i :: && 0 <= i < |Pool(cl)| && Pool(cl)[i] in cl.lookup
                && DerivedFrom(cfg, cl.lookup, [cl.lookup[Pool(cl)[i]]], tx)
  }

  /** The first n transactions come from the blocks at these heights, the others from the mempool. */
  ghost predicate Traced(cfg: Config, cl: Client, lo: int, hi: int, n: int, txs: seq<Tx>) {
    forall p :: 0 <= p < |txs| ==> if p < n then FromBlocks(cfg, cl, lo, hi, txs[p]) else FromPool(cfg, cl, txs[p])
  }

  lemma {:induction false} MadeFrom(cfg: Config, lookup: Lookup, raw: RawTx, d: Derivation, index: int, number: int,
                                    hash: Hash)
    requires cfg.derive(raw, lookup) == Derived(d)
    ensures DerivedFrom(cfg, lookup, [raw], MakeTx(raw.txid, d, index, number, hash))
  {
    assert [raw][0].txid == raw.txid;
  }

  lemma {:induction false} AmongMore(cfg: Config, lookup: Lookup, some: seq<RawTx>, all: seq<RawTx>, tx: Tx)
    requires DerivedFrom(cfg, lookup, some, tx) && forall raw :: raw in some ==> raw in all
    ensures DerivedFrom(cfg, lookup, all, tx)
  {
    var i :| 0 <= i < |some| && some[i].txid == tx.hash && Conveys(cfg.derive(some[i], lookup), tx);
    hide Conveys;
    assert some[i] in all;
    var j :| 0 <= j < |all| && all[j] == some[i];
  }

  lemma {:induction false} BlockOrigin(r: Round, known: set<Txid>, txs: seq<RawTx>, acc: seq<Tx>)
    requires CollectBlock(r, known, txs, acc).Some?
    ensures var out := CollectBlock(r, known, txs, acc).value;
            acc <= out && forall p :: |acc| <= p < |out| ==> DerivedFrom(r.cfg, r.cl.lookup, txs, out[p])
    decreases |txs|
  {
    hide DerivedFrom, MakeTx;
    if txs != [] {
      var rest, o := txs[1..], r.cfg.derive(txs[0], r.cl.lookup);
      var out := CollectBlock(r, known, txs, acc).value;
      var acc' := acc;
      if txs[0].txid !in known && txs[0].txid !in r.stored && o.Derived? {
        var tx := MakeTx(txs[0].txid, o.d, |acc|, r.number, r.hash);
        acc' := acc + [tx];
        MadeFrom(r.cfg, r.cl.lookup, txs[0], o.d, |acc|, r.number, r.hash);
        AmongMore(r.cfg, r.cl.lookup, [txs[0]], txs, tx);
      }
      BlockOrigin(r, known, rest, acc');
      hide CollectBlock;
      forall p | |acc| <= p < |out|
        ensures DerivedFrom(r.cfg, r.cl.lookup, txs, out[p])
      {
        if p >= |acc'| {
          AmongMore(r.cfg, r.cl.lookup, rest, txs, out[p]);
        } else {
          assert out[p] == acc'[p];
        }
      }
    }
  }

  lemma {:induction false} BlocksOrigin(r: Round, known: set<Txid>, h: int, newest: int, acc: seq<Tx>)
    requires CollectBlocks(r, known, h, newest, acc).Some? && h <= newest + 1
    ensures var out := CollectBlocks(r, known, h, newest, acc).value;
            && acc <= out.txs
            && forall p :: |acc| <= p < |out.txs| ==> FromBlocks(r.cfg, r.cl, h, out.scan, out.txs[p])
    decreases newest - h
  {
    if h <= newest {
      var txs, out := r.cl.blocks[h], CollectBlocks(r, known, h, newest, acc).value;
      var next := CollectBlock(r, known, txs, acc).value;
      BlockOrigin(r, known, txs, acc);
      BlocksScan(r, known, h, newest, acc);
      if |next| < r.cfg.maxTxs {
        BlocksOrigin(r, known, h + 1, newest, next);
        BlocksScan(r, known, h + 1, newest, next);
      }
      hide CollectBlock, CollectBlocks, DerivedFrom;
      forall p | |acc| <= p < |out.txs|
        ensures FromBlocks(r.cfg, r.cl, h, out.scan, out.txs[p])
      {
        if p < |next| {
          assert out.txs[p] == next[p] && DerivedFrom(r.cfg, r.cl.lookup, txs, next[p]);
        } else {
          var k :| h + 1 <= k <= out.scan && k in r.cl.blocks
            && DerivedFrom(r.cfg, r.cl.lookup, r.cl.blocks[k], out.txs[p]);
        }
      }
    }
  }

  lemma {:induction false} PoolMade(r: Round, i: nat, d: Derivation, main: nat)
    requires i < |Pool(r.cl)| && Pool(r.cl)[i] in r.cl.lookup
    requires r.cfg.derive(r.cl.lookup[Pool(r.cl)[i]], r.cl.lookup) == Derived(d)
    ensures FromPool(r.cfg, r.cl, MakeTx(r.cl.lookup[Pool(r.cl)[i]].txid, d, main, r.number, r.hash))
  {
    hide DerivedFrom, MakeTx, Pool;
    MadeFrom(r.cfg, r.cl.lookup, r.cl.lookup[Pool(r.cl)[i]], d, main, r.number, r.hash);
  }

  lemma {:induction false} PoolOrigin(r: Round, known: set<Txid>, evict: Evictor, i: nat, acc: seq<Tx>, main: nat)
    requires i <= |Pool(r.cl)| && CollectMempool(r, Pool(r.cl), known, evict, i, acc, main).Some?
    ensures var out := CollectMempool(r, Pool(r.cl), known, evict, i, acc, main).value.txs;
            acc <= out && forall p :: |acc| <= p < |out| ==> FromPool(r.cfg, r.cl, out[p])
    decreases |Pool(r.cl)| - i
  {
    hide Pool, AddKnown, FromPool, MakeTx;
    if i < |Pool(r.cl)| {
      var t := Pool(r.cl)[i];
      if t in known || t in r.stored || t !in r.cl.lookup {
        PoolOrigin(r, known, evict, i + 1, acc, main);
      } else {
        var raw := r.cl.lookup[t];
        var o, known' := r.cfg.derive(raw, r.cl.lookup), AddKnown(known, t, evict, i);
        if o.Rejected? {
          PoolOrigin(r, known', evict, i + 1, acc, main);
        } else {
          var tx := MakeTx(raw.txid, o.d, main, r.number, r.hash);
          PoolMade(r, i, o.d, main);
          if |acc + [tx]| < r.cfg.maxTxs {
            PoolOrigin(r, known', evict, i + 1, acc + [tx], main);
          }
        }
      }
    }
  }

  /** Every transaction of a completed round is the derivation of a raw transaction with its id: of one in the
      blocks the round scanned, or, after those, of one the mempool names. */
  lemma {:induction false} RoundOrigins(r: Round, scan: int, known: set<Txid>, scanBlock: bool, evict: Evictor)
    requires GetNewTxs(r, scan, known, scanBlock, evict).Collected?
    ensures var c := GetNewTxs(r, scan, known, scanBlock, evict);
            Traced(r.cfg, r.cl, scan + 1, c.scan, c.main, c.txs)
  {
    hide CollectBlocks, CollectMempool, FromBlocks, FromPool;
    if scanBlock && scan < r.cl.count.value {
      BlocksOrigin(r, known, scan + 1, r.cl.count.value, []);
    }
    var m := CollectMain(r, scan, known, scanBlock).value;
    if |m.txs| < r.cfg.maxTxs {
      PoolOrigin(r, known, evict, 0, m.txs, |m.txs|);
    }
  }

  // ---------------------------------------------------------------- what the cache is for

  /** Position i of the mempool was looked up in this round without a panic. */
  ghost predicate LookedUp(r: Round, known: set<Txid>, i: int) {
    && 0 <= i < |Pool(r.cl)|
    && var t := Pool(r.cl)[i];
       t !in known && t !in r.stored && t in r.cl.lookup
  }

  /** The cache holds what was looked up from position i on. */
  ghost predicate Remembers(r: Round, known: set<Txid>, i: int, cache: set<Txid>) {
    forall j :: i <= j < |Pool(r.cl)| && LookedUp(r, known, j) ==> Pool(r.cl)[j] in cache
  }

  lemma {:induction false} RemembersMore(r: Round, known: set<Txid>, more: set<Txid>, i: nat, cache: set<Txid>)
    requires i < |Pool(r.cl)| && Remembers(r, more, i + 1, cache) && more <= cache
    requires more == known + {Pool(r.cl)[i]} || (more == known && !LookedUp(r, known, i))
    ensures Remembers(r, known, i, cache)
  {
    hide Pool;
  }

  lemma {:induction false} RoomForOne(known: set<Txid>, t: Txid, evict: Evictor, i: nat)
    requires |known| < 100_000
    ensures AddKnown(known, t, evict, i) == known + {t} && |known + {t}| <= |known| + 1
  {
  }

  lemma {:induction false} PoolRemembers(r: Round, known: set<Txid>, evict: Evictor, i: nat, acc: seq<Tx>, main: nat)
    requires i <= |Pool(r.cl)| && CollectMempool(r, Pool(r.cl), known, evict, i, acc, main).Some?
    requires |known| + (|Pool(r.cl)| - i) <= 100_000
    ensures var out := CollectMempool(r, Pool(r.cl), known, evict, i, acc, main).value;
            known <= out.known && (|out.txs| < r.cfg.maxTxs ==> Remembers(r, known, i, out.known))
    decreases |Pool(r.cl)| - i
  {
    hide Pool, MakeTx, AddKnown, Remembers;
    if i == |Pool(r.cl)| {
      NothingLeft(r, known);
    } else {
      var t := Pool(r.cl)[i];
      var out := CollectMempool(r, Pool(r.cl), known, evict, i, acc, main).value;
      var known', acc' := known, acc;
      if t !in known && t !in r.stored && t in r.cl.lookup {
        var o := r.cfg.derive(r.cl.lookup[t], r.cl.lookup);
        RoomForOne(known, t, evict, i);
        known' := AddKnown(known, t, evict, i);
        acc' := if o.Derived? then acc + [MakeTx(r.cl.lookup[t].txid, o.d, main, r.number, r.hash)] else acc;
      }
      if acc' == acc || |acc'| < r.cfg.maxTxs {
        PoolRemembers(r, known', evict, i + 1, acc', main);
        hide CollectMempool;
        if |out.txs| < r.cfg.maxTxs {
          RemembersMore(r, known, known', i, out.known);
        }
      }
    }
  }

  lemma {:induction false} NothingLeft(r: Round, known: set<Txid>)
    ensures Remembers(r, known, |Pool(r.cl)|, known)
  {
  }

  /** Unless the batch fills up or the cache is close to its limit, a round remembers every mempool id it looked up,
      and forgets none. */
  lemma {:induction false} RoundRemembers(r: Round, scan: int, known: set<Txid>, scanBlock: bool, evict: Evictor)
    requires GetNewTxs(r, scan, known, scanBlock, evict).Collected? && |known| + |Pool(r.cl)| <= 100_000
    ensures var c := GetNewTxs(r, scan, known, scanBlock, evict);
            && known <= c.known
            && (|c.txs| < r.cfg.maxTxs ==> forall j :: LookedUp(r, known, j) ==> Pool(r.cl)[j] in c.known)
  {
    hide CollectMain, CollectMempool;
    var m := CollectMain(r, scan, known, scanBlock).value;
    if |m.txs| < r.cfg.maxTxs {
      PoolRemembers(r, known, evict, 0, m.txs, |m.txs|);
      assert |GetNewTxs(r, scan, known, scanBlock, evict).txs| < r.cfg.maxTxs ==>
               Remembers(r, known, 0, GetNewTxs(r, scan, known, scanBlock, evict).known);
    }
  }
}
