/** The objects of one adaptor process: the store, the scanner and the virtual chain, updated in place.
    The node's answers, the clock and the random evictions are parameters. */
module Adapter {
  import opened Bytes
  import opened ChainTypes
  import opened Egtx
  import opened Runs
  import S = Scanner
  import ChainTheorems
  import Origins
  import LogAbi

  /** store.ChainLogDB: an append-only list of blocks with a transaction index. */
  class ChainLogDB {
    var blocks: seq<Block>

    constructor ()
      ensures blocks == []
    {
      blocks := [];
    }

    method AddBlock(b: Block)
      modifies this
      ensures blocks == old(blocks) + [b]
    {
      blocks := blocks + [b];
    }

    method IsTxMined(t: Txid) returns (mined: bool)
      ensures mined <==> exists k, i :: 0 <= k < |blocks| && 0 <= i < |blocks[k].txs| && blocks[k].txs[i].hash == t
      ensures mined <==> t in Stored(blocks)
    {
      mined := false;
      for k := 0 to |blocks|
        invariant mined <==> t in AllIds(blocks[..k])
        invariant mined <==> exists j, i :: 0 <= j < k && 0 <= i < |blocks[j].txs| && blocks[j].txs[i].hash == t
      {
        assert blocks[..k + 1][..k] == blocks[..k];
        var ids := S.Ids(blocks[k].txs);
        assert t in ids <==> exists i :: 0 <= i < |blocks[k].txs| && blocks[k].txs[i].hash == t;
        mined := mined || t in ids;
      }
      assert blocks[..|blocks|] == blocks;
    }

    method GetLatestBlockInfo(now: int) returns (height: nat, timestamp: int, hash: Hash, scan: int)
      ensures blocks == [] ==> height == 0 && timestamp == now && hash == ZERO_HASH && scan == 0
      ensures blocks != [] ==> var tip := blocks[|blocks| - 1];
                               && height == tip.number && timestamp == tip.timestamp && hash == tip.hash
                               && scan == tip.gasUsed
    {
      if blocks == [] {
        return 0, now, ZERO_HASH, 0;
      }
      var tip := blocks[|blocks| - 1];
      return tip.number, tip.timestamp, tip.hash, tip.gasUsed;
    }
  }

  /** scanner.BchScanner. */
  class BchScanner {
    const cfg: S.Config
    const db: ChainLogDB
    var latestScan: int
    var known: set<Txid>

    constructor (cfg: S.Config, db: ChainLogDB)
      ensures this.cfg == cfg && this.db == db && known == {} && latestScan == 0
    {
      this.cfg, this.db := cfg, db;
      latestScan, known := 0, {};
    }

    method AddKnownTx(t: Txid, evict: S.Evictor, i: nat)
      modifies this`known
      ensures known == S.AddKnown(old(known), t, evict, i)
      ensures |old(known)| <= 100_000 ==> known == old(known) + {t}
      ensures |old(known)| > 100_000 ==> known == old(known) - {evict(i, old(known))} + {t}
    {
      if |known| > S.MAX_CACHE_SIZE {
        known := known - {evict(i, known)};
      }
      known := known + {t};
    }

    /** collectMainChainBlockTxs: the heights after the last scanned one, until a block fills the limit. */
    method CollectMainChainBlockTxs(r: S.Round) returns (panicked: bool, txs: seq<Tx>)
      requires r.cfg == cfg && r.stored == Stored(db.blocks)
      modifies this`latestScan
      ensures panicked <==> S.CollectMain(r, old(latestScan), known, true).None?
      ensures !panicked ==> S.CollectMain(r, old(latestScan), known, true) == Some(S.Main(txs, latestScan))
    {
      panicked, txs := false, [];
      if r.cl.count.None? {
        return true, [];
      }
      var newest := r.cl.count.value;
      ghost var goal := S.CollectMain(r, latestScan, known, true);
      var h := latestScan + 1;
      while h <= newest
        invariant h == latestScan + 1
        invariant old(latestScan) < newest ==> goal == S.CollectBlocks(r, known, h, newest, txs)
        invariant old(latestScan) >= newest ==> latestScan == old(latestScan) && txs == []
        decreases newest - h
      {
        if h !in r.cl.blocks {
          return true, [];
        }
        var block := r.cl.blocks[h];
        ghost var before := txs;
        for i := 0 to |block|
          invariant S.CollectBlock(r, known, block, before) == S.CollectBlock(r, known, block[i..], txs)
        {
          var tx := block[i];
          assert block[i..][0] == tx && block[i..][1..] == block[i + 1..];
          if tx.txid in known {
            continue;
          }
          var mined := db.IsTxMined(tx.txid);
          if mined {
            continue;
          }
          var o := cfg.derive(tx, r.cl.lookup);
          match o {
            case Panic => return true, [];
            case Rejected(_) =>
            case Derived(d) => txs := txs + [MakeTx(tx.txid, d, |txs|, r.number, r.hash)];
          }
        }
        assert block[|block|..] == [];
        latestScan := h;
        if |txs| >= cfg.maxTxs {
          return;
        }
        h := h + 1;
      }
    }

    /** GetNewTxs: main-chain blocks if asked for, then the mempool. */
    method GetNewTxs(number: nat, hash: Hash, scanBlock: bool, cl: S.Client, evict: S.Evictor)
      returns (panicked: bool, txs: seq<Tx>)
      modifies this
      ensures var c := S.GetNewTxs(S.Round(cfg, cl, Stored(db.blocks), number, hash), old(latestScan), old(known),
                                   scanBlock, evict);
              && (panicked <==> c.Panicked?)
              && (!panicked ==> txs == c.txs && latestScan == c.scan && known == c.known)
    {
      var r := S.Round(cfg, cl, Stored(db.blocks), number, hash);
      panicked, txs := false, [];
      if scanBlock {
        panicked, txs := CollectMainChainBlockTxs(r);
        if panicked {
          return;
        }
      }
      if |txs| >= cfg.maxTxs {
        return;
      }
      if cl.mempool.None? {
        return true, [];
      }
      panicked, txs := CollectMempoolTxs(r, cl.mempool.value, txs, evict);
    }

    /** The mempool loop of GetNewTxs; the transaction index stays where the main-chain blocks left it. */
    method CollectMempoolTxs(r: S.Round, pool: seq<Txid>, found: seq<Tx>, evict: S.Evictor)
      returns (panicked: bool, txs: seq<Tx>)
      requires r.cfg == cfg && r.stored == Stored(db.blocks)
      modifies this`known
      ensures var c := S.CollectMempool(r, pool, old(known), evict, 0, found, |found|);
              && (panicked <==> c.None?) && (!panicked ==> c == Some(S.Pooled(txs, known)))
    {
      panicked, txs := false, found;
      ghost var goal := S.CollectMempool(r, pool, known, evict, 0, found, |found|);
      for i := 0 to |pool|
        invariant goal == S.CollectMempool(r, pool, known, evict, i, txs, |found|)
      {
        var t := pool[i];
        if t in known {
          continue;
        }
        var mined := db.IsTxMined(t);
        if mined || t !in r.cl.lookup {
          continue;
        }
        var o := cfg.derive(r.cl.lookup[t], r.cl.lookup);
        match o {
          case Panic => return true, [];
          case Rejected(_) => AddKnownTx(t, evict, i);
          case Derived(d) =>
            txs := txs + [MakeTx(r.cl.lookup[t].txid, d, |found|, r.number, r.hash)];
            AddKnownTx(t, evict, i);
            if |txs| >= cfg.maxTxs {
              return;
            }
        }
      }
    }
  }

  /** chains.VirtualChain. */
  class VirtualChain {
    const scanner: BchScanner
    const db: ChainLogDB
    var height: nat
    var hash: Hash
    var prevHash: Hash
    var timestamp: int
    var chainFeed: seq<Hash>
    var logsFeed: seq<seq<Log>>
    ghost var since: nat

    constructor (scanner: BchScanner)
      ensures this.scanner == scanner && db == scanner.db
      ensures height == 0 && hash == ZERO_HASH && prevHash == ZERO_HASH && timestamp == 0
      ensures chainFeed == [] && logsFeed == []
    {
      this.scanner, db := scanner, scanner.db;
      height, hash, prevHash, timestamp, since := 0, ZERO_HASH, ZERO_HASH, 0, 0;
      chainFeed, logsFeed := [], [];
    }

    ghost predicate Valid() {
      scanner.db == db
    }

    /** The feeds have carried exactly the blocks written since the last recovery. */
    ghost predicate Published()
      reads this, db
    {
      && since <= |db.blocks|
      && chainFeed == Hashes(db.blocks[since..]) && logsFeed == LogBatches(db.blocks[since..])
    }

    ghost function Memo(): Memory
      reads this, scanner
    {
      Memory(height, hash, prevHash, timestamp, scanner.latestScan, scanner.known, since)
    }

    /** RecoveryFromDB right after the process has started, with its cache still empty. */
    method RecoveryFromDB(now: int)
      requires Valid() && scanner.known == {} && chainFeed == [] && logsFeed == []
      modifies this, scanner
      ensures Memo() == Recovered(scanner.cfg, db.blocks, now) && Published()
    {
      var h, ts, hs, scan := db.GetLatestBlockInfo(now);
      height, timestamp, hash, prevHash := h, ts, hs, hs;
      since := |db.blocks|;
      assert db.blocks[since..] == [];
      if scan == 0 {
        scan := scanner.cfg.genesis;
      }
      scanner.latestScan := scan;
    }

    /** GenerateNewBlock: the collecting step, then, unless there is nothing to write, the committing step.
        A panic leaves the store as it was. */
    method GenerateNewBlock(scanBlock: bool, cl: S.Client, evict: S.Evictor, now: int) returns (panicked: bool)
      requires Valid()
      modifies this, scanner, db
      ensures var p := old(Collecting(scanner.cfg, db.blocks, Memo(), cl, scanBlock, evict, now));
              && (panicked <==> p.Down?)
              && (p.Down? ==> db.blocks == old(db.blocks))
              && (p.Idle? ==> db.blocks == old(db.blocks) && Memo() == p.m)
              && (p.Pending? ==>
                    && db.blocks == old(db.blocks) + [NewBlock(p)]
                    && Memo() == p.m.(height := p.m.height + 1, hash := p.hash, timestamp := p.source.now))
      ensures old(Published()) ==> Published()
    {
      hide S.GetNewTxs, BlockHash, Stored, LogBatches, LogsOf;
      var newHash := BlockHash(scanner.cfg, height);
      var txs;
      panicked, txs := scanner.GetNewTxs(height + 1, newHash, scanBlock, cl, evict);
      if panicked || (txs == [] && !scanBlock) {
        return;
      }
      height := height + 1;
      timestamp := now;
      hash := newHash;
      var block := Block(height, hash, prevHash, 0, timestamp, scanner.latestScan, txs);
      ghost var before := db.blocks;
      db.AddBlock(block);
      PublishNewBlock(block);
      if since <= |before| {
        OneMorePublished(before, block, since);
      }
    }

    /** Start: recovery, then one round per tick, the first and every twelfth of them scanning, until a panic
        ends the process. What it writes is what the state machine writes for the same events. */
    method Start(now: int, rounds: seq<Answers>, ghost before: seq<Event>) returns (done: nat)
      requires Valid() && scanner.known == {} && chainFeed == [] && logsFeed == []
      requires Run(scanner.cfg, EMPTY, before).proc.Down? && Run(scanner.cfg, EMPTY, before).store == db.blocks
      modifies this, scanner, db
      ensures done <= |rounds| && Published()
      ensures var s := Run(scanner.cfg, EMPTY, before + SessionOf(now, rounds[..done]));
              db.blocks == s.store && (s.proc.Down? || s.proc == Idle(Memo()))
    {
      hide Collecting, Recovered, Run, LogBatches;
      RunMore(scanner.cfg, before, Recover(now));
      RecoveryFromDB(now);
      done := 0;
      assert rounds[..0] == [];
      var panicked := false;
      while done < |rounds| && !panicked
        invariant done <= |rounds| && Valid() && Published()
        invariant var s := Run(scanner.cfg, EMPTY, before + SessionOf(now, rounds[..done]));
                  db.blocks == s.store && s.proc == if panicked then Down else Idle(Memo())
        decreases |rounds| - done
      {
        var a, scanBlock := rounds[done], done % 12 == 0;
        assert rounds[..done + 1][..done] == rounds[..done];
        ghost var so := before + SessionOf(now, rounds[..done]);
        ghost var collect := Collect(a.cl, scanBlock, a.evict, a.now);
        RunMore(scanner.cfg, so, collect);
        RunMore(scanner.cfg, so + [collect], Commit);
        assert before + SessionOf(now, rounds[..done + 1]) == so + [collect] + [Commit];
        panicked := GenerateNewBlock(scanBlock, a.cl, a.evict, a.now);
        done := done + 1;
      }
    }

    /** publishNewBlock: the block goes to the chain feed, and its logs, if any, to the logs feed. */
    method PublishNewBlock(b: Block)
      modifies this`chainFeed, this`logsFeed
      ensures chainFeed == old(chainFeed) + Hashes([b]) && logsFeed == old(logsFeed) + LogBatches([b])
      ensures chainFeed == old(chainFeed) + [b.hash]
      ensures logsFeed == if LogsOf(b.txs) == [] then old(logsFeed) else old(logsFeed) + [LogsOf(b.txs)]
    {
      chainFeed := chainFeed + [b.hash];
      var logs := LogsOf(b.txs);
      assert [b][1..] == [] && LogBatches([]) == [];
      if |logs| > 0 {
        logsFeed := logsFeed + [logs];
      }
    }
  }

  /** What the outside world gives one round. */
  datatype Answers = Answers(cl: S.Client, evict: S.Evictor, now: int)

  /** The events of one session of the process. */
  function SessionOf(now: int, rounds: seq<Answers>): seq<Event> {
    if rounds == [] then [Recover(now)]
    else
      var n := |rounds| - 1;
      SessionOf(now, rounds[..n]) + [Collect(rounds[n].cl, n % 12 == 0, rounds[n].evict, rounds[n].now), Commit]
  }

  /** A session recovers, then collects and commits in turn; the first round and every twelfth after it scan. */
  lemma {:induction false} SessionShape(now: int, rounds: seq<Answers>, i: nat)
    requires i < |rounds|
    ensures var events := SessionOf(now, rounds);
            && |events| == 1 + 2 * |rounds| && events[0] == Recover(now) && events[2 * i + 2] == Commit
            && events[2 * i + 1] == Collect(rounds[i].cl, i % 12 == 0, rounds[i].evict, rounds[i].now)
  {
    var n := |rounds| - 1;
    if n == 0 {
      assert rounds[..0] == [] && SessionOf(now, []) == [Recover(now)];
    } else {
      SessionShape(now, rounds[..n], if i < n then i else 0);
    }
  }

  lemma {:induction false} RunMore(cfg: S.Config, events: seq<Event>, e: Event)
    ensures Run(cfg, EMPTY, events + [e]) == Apply(cfg, Run(cfg, EMPTY, events), e)
  {
    assert (events + [e])[..|events|] == events;
    hide Apply;
  }

  lemma {:induction false} OneMorePublished(blocks: seq<Block>, b: Block, since: nat)
    requires since <= |blocks|
    ensures var all := (blocks + [b])[since..];
            && Hashes(all) == Hashes(blocks[since..]) + Hashes([b])
            && LogBatches(all) == LogBatches(blocks[since..]) + LogBatches([b])
  {
    assert (blocks + [b])[since..] == blocks[since..] + [b];
    hide LogBatches;
    BatchesConcat(blocks[since..], [b]);
  }

  // ---------------------------------------------------------------- the Bitcoin Cash configuration

  /** The chain derives by the EGTX rules. */
  ghost predicate DerivesEgtx(cfg: S.Config) {
    forall tx, lookup :: cfg.derive(tx, lookup) == Derive(tx, lookup)
  }

  /** An id names one list of outputs; everything else the node reports, such as the number of
      confirmations, may differ from answer to answer. */
  ghost predicate Names(content: Txid -> RawTx, tx: RawTx) {
    tx.vout == content(tx.txid).vout
  }

  ghost predicate ByContent(cl: S.Client, content: Txid -> RawTx) {
    && (forall h, i :: h in cl.blocks && 0 <= i < |cl.blocks[h]| ==> Names(content, cl.blocks[h][i]))
    && (forall t :: t in cl.lookup ==> cl.lookup[t].txid == t && Names(content, cl.lookup[t]))
  }

  /** With the EGTX derivation and a node whose answers agree on the outputs of an id, the assumption of the
      run theorems holds. */
  lemma {:induction false} BchConsistent(cfg: S.Config, cl: S.Client, content: Txid -> RawTx)
    requires DerivesEgtx(cfg) && ByContent(cl, content)
    ensures S.Consistent(cfg, cl, t => Derivable(content(t)))
  {
    var derivable := t => Derivable(content(t));
    forall tx, lookup | Names(content, tx)
      ensures S.Agrees(cfg.derive(tx, lookup), derivable(tx.txid))
    {
      DeriveAgrees(tx, lookup);
      SameOutputs(tx, content(tx.txid));
    }
    hide Derive, Derivable, S.Agrees, Names;
    forall h | h in cl.blocks
      ensures S.AgreesAll(cfg, cl.lookup, cl.blocks[h], derivable)
    {
    }
  }

  /** Whether a transaction meets the EGTX rules depends on its outputs only. */
  lemma SameOutputs(a: RawTx, b: RawTx)
    requires a.vout == b.vout
    ensures Derivable(a) <==> Derivable(b)
  {
  }

  lemma {:induction false} DeriveAgrees(tx: RawTx, lookup: Lookup)
    ensures S.Agrees(Derive(tx, lookup), Derivable(tx))
  {
    AcceptsExactlyDerivable(tx, lookup);
    if Derive(tx, lookup).Derived? {
      FourTopics(EgtxPushes(tx).value);
    }
  }

  /** The events of a run against Bitcoin Cash nodes that agree on what an id names. */
  ghost predicate BchRun(content: Txid -> RawTx, events: seq<Event>) {
    forall i :: 0 <= i < |events| && events[i].Collect? ==>
      ByContent(events[i].cl, content) && S.NoDup(S.Pool(events[i].cl)) && S.Picks(events[i].evict)
  }

  /** Exactly-once coverage for Bitcoin Cash: every transaction of the covered main-chain blocks that meets
      the EGTX rules is stored, exactly once if the written rounds were clean, and every stored transaction
      meets them. */
  lemma {:induction false} BchExactlyOnce(cfg: S.Config, content: Txid -> RawTx, events: seq<Event>)
    requires DerivesEgtx(cfg) && cfg.genesis >= 0 && BchRun(content, events)
    ensures var s := Run(cfg, EMPTY, events);
            var covered, times := Covered(s.sources), multiset(AllIds(s.store));
            var egtx := t => Derivable(content(t));
            && |covered| == Persisted(cfg, s.store) - cfg.genesis
            && Covers(AllIds(s.store), covered, egtx)
            && (forall t :: t in AllIds(s.store) ==> egtx(t))
            && (forall j, k, t :: 0 <= j < k < |s.store| && t in S.Ids(s.store[j].txs) ==> t !in S.Ids(s.store[k].txs))
            && (ChainTheorems.CleanRounds(cfg, egtx, s.store, s.sources) ==>
                  && (forall k, i :: 0 <= k < |covered| && 0 <= i < |covered[k]| && egtx(covered[k][i].txid) ==>
                        times[covered[k][i].txid] == 1)
                  && (forall t :: t in AllIds(s.store) ==> times[t] == 1))
  {
    BchFair(cfg, content, events);
    hide Derivable, Derive, Run, AllFair, Covers, Covered, AllIds, Persisted, S.Ids;
    ChainTheorems.ExactlyOnce(cfg, t => Derivable(content(t)), events);
  }

  lemma {:induction false} BchFair(cfg: S.Config, content: Txid -> RawTx, events: seq<Event>)
    requires DerivesEgtx(cfg) && BchRun(content, events)
    ensures AllFair(cfg, t => Derivable(content(t)), events)
  {
    hide DerivesEgtx, ByContent, Derivable;
    forall i | 0 <= i < |events|
      ensures Fair(cfg, t => Derivable(content(t)), events[i])
    {
      if events[i].Collect? {
        BchConsistent(cfg, events[i].cl, content);
      }
    }
  }

  /** The stored transaction is what this raw transaction derives to, and its log data decodes to the content. */
  ghost predicate Shows(raw: RawTx, lookup: Lookup, tx: Tx) {
    && raw.txid == tx.hash && Derive(raw, lookup).Derived?
    && var d := Derive(raw, lookup).d;
       && tx.from == d.from && tx.to == d.to && |tx.logs| == 1
       && var l := tx.logs[0];
          && l.address == d.contract && l.topics == d.topics
          && (|l.data| < TWO_256 ==> LogAbi.Unpack(l.data) == Some(d.content))
  }

  /** The node gave out this raw transaction. */
  ghost predicate Gave(cl: S.Client, raw: RawTx) {
    || (exists h :: h in cl.blocks && raw in cl.blocks[h])
    || (exists t :: t in S.Pool(cl) && t in cl.lookup && cl.lookup[t] == raw)
  }

  lemma {:induction false} ConveysShows(cfg: S.Config, lookup: Lookup, raws: seq<RawTx>, tx: Tx) returns (raw: RawTx)
    requires DerivesEgtx(cfg) && Origins.DerivedFrom(cfg, lookup, raws, tx)
    ensures raw in raws && Shows(raw, lookup, tx)
  {
    hide Derive, LogAbi.Pack, LogAbi.Unpack, LogAbi.Encodable;
    var i :| 0 <= i < |raws| && raws[i].txid == tx.hash && Origins.Conveys(cfg.derive(raws[i], lookup), tx);
    raw := raws[i];
    if |tx.logs[0].data| < TWO_256 {
      DerivedDataDecodes(raw, lookup);
    }
  }

  /** What Bitcoin Cash transactions become: every stored transaction is the EGTX derivation of a raw transaction with
      its id that a node gave out: sender, recipient, contract address, topics and decoded log data. */
  lemma {:induction false} BchStored(cfg: S.Config, content: Txid -> RawTx, events: seq<Event>, k: nat, p: nat)
    returns (i: nat, raw: RawTx)
    requires DerivesEgtx(cfg) && cfg.genesis >= 0 && BchRun(content, events)
    requires k < |Run(cfg, EMPTY, events).store| && p < |Run(cfg, EMPTY, events).store[k].txs|
    ensures i < |events| && events[i].Collect? && Gave(events[i].cl, raw)
    ensures Shows(raw, events[i].cl.lookup, Run(cfg, EMPTY, events).store[k].txs[p])
  {
    hide Run, DerivesEgtx, BchRun, AllFair, Shows, Derivable, Origins.DerivedFrom, S.Pool;
    BchFair(cfg, content, events);
    i := ChainTheorems.StoredIsDerived(cfg, t => Derivable(content(t)), events, k, p);
    var cl, tx := events[i].cl, Run(cfg, EMPTY, events).store[k].txs[p];
    if Origins.FromPool(cfg, cl, tx) {
      var j :| && 0 <= j < |S.Pool(cl)| && S.Pool(cl)[j] in cl.lookup
               && Origins.DerivedFrom(cfg, cl.lookup, [cl.lookup[S.Pool(cl)[j]]], tx);
      raw := ConveysShows(cfg, cl.lookup, [cl.lookup[S.Pool(cl)[j]]], tx);
    } else {
      var h :| h in cl.blocks && Origins.DerivedFrom(cfg, cl.lookup, cl.blocks[h], tx);
      raw := ConveysShows(cfg, cl.lookup, cl.blocks[h], tx);
    }
  }
}
