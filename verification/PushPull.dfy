/** What subscribers are sent and what queries return for the same block (chains/adapter.go publishNewBlock,
    rpc/api/filters, api/backend.go), and the chain of every run as a chain to query. */
module PushPull {
  import opened Bytes
  import opened ChainTypes
  import opened Filters
  import opened Confirmations
  import opened Queries
  import Egtx
  import Scanner
  import Runs
  import ChainTheorems
  import E = EventSystem

  ghost predicate DistinctHashes(chain: seq<Block>) {
    forall j, k :: 0 <= j < k < |chain| ==> chain[j].hash != chain[k].hash
  }

  lemma {:induction false} FoundByHash(chain: seq<Block>, k: nat)
    requires DistinctHashes(chain) && k < |chain|
    ensures FindBlock(chain, chain[k].hash) == Some(chain[k])
  {
    if k < |chain| - 1 {
      FoundByHash(chain[..|chain| - 1], k);
    }
  }

  lemma {:induction false} NumbersOf(txs: seq<Tx>, number: int)
    requires ProperTxs(txs, number)
    ensures forall i :: 0 <= i < |LogsOf(txs)| ==> LogsOf(txs)[i].blockNumber == number
  {
    if txs != [] {
      NumbersOf(txs[1..], number);
      assert ProperTx(txs[0], number);
    }
  }

  /** The logs the event loop sends a subscriber when block b is published. */
  function Pushed(b: Block, crit: Criteria): seq<Log> {
    MatchLogs(Bounded(LogsOf(b.txs), crit.from, crit.to), crit.addresses, crit.topics)
  }

  /** It is what the event loop matches for a log subscription when the block's logs arrive. */
  lemma SentIsPushed(b: Block, crit: Criteria)
    ensures E.Matched(E.LogKind(crit.from, crit.to, crit.addresses, crit.topics), E.LogsEvent(LogsOf(b.txs)))
         == E.Items(Pushed(b, crit))
  {
  }

  /** The two lists name the same logs and differ in the first data word only. */
  ghost predicate SameButFirstWord(pushed: seq<Log>, pulled: seq<Log>) {
    |pushed| == |pulled| && forall i :: 0 <= i < |pushed| ==>
      && pulled[i] == pushed[i].(data := pulled[i].data)
      && |pulled[i].data| == |pushed[i].data|
      && (|pushed[i].data| >= 32 ==> pulled[i].data[32..] == pushed[i].data[32..])
  }

  /** Push and pull agree: for a block within the bounds, asking for that block by hash or by number returns
      the logs the subscriber was sent, with fresh confirmation words. */
  lemma {:induction false} PushPullAgree(chain: seq<Block>, k: nat, crit: Criteria, lookup: Egtx.Lookup)
    requires Proper(chain) && DistinctHashes(chain) && k < |chain| && InBounds(k + 1, crit.from, crit.to)
    requires crit.addresses == [] && crit.topics == [] ==> |Pushed(chain[k], crit)| <= MAX_LOG_RESULTS
    ensures var pulled := RefreshedAll(Pushed(chain[k], crit), lookup);
            && Answered(chain, crit.(blockHash := Some(chain[k].hash)), lookup) == Logs(pulled)
            && Answered(chain, crit.(blockHash := None, from := Some(k + 1), to := Some(k + 1)), lookup) == Logs(pulled)
            && SameButFirstWord(Pushed(chain[k], crit), pulled)
            && E.Matched(E.LogKind(crit.from, crit.to, crit.addresses, crit.topics), E.LogsEvent(LogsOf(chain[k].txs)))
               == E.Items(Pushed(chain[k], crit))
  {
    var b := chain[k];
    SentIsPushed(b, crit);
    FoundByHash(chain, k);
    OneHeight(chain, k);
    assert b.number == k + 1 && ProperTxs(b.txs, k + 1);
    NumbersOf(b.txs, k + 1);
    AllInBounds(LogsOf(b.txs), crit.from, crit.to);
    assert Pushed(b, crit) == Expected(chain, k + 1, k + 1, crit.addresses, crit.topics);
    OnlyFirstWord(Pushed(b, crit), lookup);
    hide Expected, Pushed, RefreshedAll, SameButFirstWord, FindBlock, Proper, DistinctHashes, InBounds;
    ByHash(chain, k, crit, lookup);
  }

  lemma {:induction false} ByHash(chain: seq<Block>, k: nat, crit: Criteria, lookup: Egtx.Lookup)
    requires k < |chain| && chain[k].number == k + 1 && FindBlock(chain, chain[k].hash) == Some(chain[k])
    requires Pushed(chain[k], crit) == Expected(chain, k + 1, k + 1, crit.addresses, crit.topics)
    requires crit.addresses == [] && crit.topics == [] ==> |Pushed(chain[k], crit)| <= MAX_LOG_RESULTS
    ensures var pulled := Logs(RefreshedAll(Pushed(chain[k], crit), lookup));
            && Answered(chain, crit.(blockHash := Some(chain[k].hash)), lookup) == pulled
            && Answered(chain, crit.(blockHash := None, from := Some(k + 1), to := Some(k + 1)), lookup) == pulled
  {
    hide Expected, Pushed, RefreshedAll, FindBlock;
  }

  lemma {:induction false} OnlyFirstWord(logs: seq<Log>, lookup: Egtx.Lookup)
    ensures SameButFirstWord(logs, RefreshedAll(logs, lookup))
  {
  }

  /** Every chain a run leaves behind meets what the query theorems ask of a chain. */
  lemma {:induction false} RunsAreProper(cfg: Scanner.Config, derivable: Egtx.Txid -> bool, events: seq<Runs.Event>)
    requires Runs.AllFair(cfg, derivable, events) && cfg.genesis >= 0 && Runs.IdealHash(cfg)
    requires forall t :: t in Runs.AllIds(Runs.Run(cfg, Runs.EMPTY, events).store) ==> |t| == 32
    ensures var chain := Runs.Run(cfg, Runs.EMPTY, events).store;
            Proper(chain) && DistinctHashes(chain)
  {
    hide Runs.Run, Runs.AllIds, Runs.BlockHash, Runs.AllFair, Runs.IdealHash, Runs.BlockOk, ProperTxs;
    var chain, sources := Runs.Run(cfg, Runs.EMPTY, events).store, Runs.Run(cfg, Runs.EMPTY, events).sources;
    ChainTheorems.ChainShape(cfg, derivable, events);
    forall k | 0 <= k < |chain|
      ensures chain[k].number == k + 1 && ProperTxs(chain[k].txs, k + 1)
    {
      ShapedIsProper(cfg, derivable, chain, k, sources[k]);
    }
  }

  lemma {:induction false} ShapedIsProper(cfg: Scanner.Config, derivable: Egtx.Txid -> bool, chain: seq<Block>, k: nat,
                                          src: Runs.Source)
    requires k < |chain| && Runs.BlockOk(cfg, derivable, chain[..k], src, chain[k])
    requires forall t :: t in Runs.AllIds(chain) ==> |t| == 32
    ensures chain[k].number == k + 1 && ProperTxs(chain[k].txs, k + 1)
  {
    hide Runs.AllIds, Runs.BlockHash, Runs.MainIds, Runs.PoolIds, Runs.Persisted, Scanner.NoDup,
      Scanner.TxShaped, Scanner.Pool, ProperTx;
    var txs := chain[k].txs;
    var main := |Runs.MainIds(derivable, chain[..k], src)|;
    forall i | 0 <= i < |txs|
      ensures ProperTx(txs[i], k + 1)
    {
      assert Scanner.TxShaped(txs[i], if i < main then i else main, k + 1, Runs.BlockHash(cfg, k));
      assert Scanner.Ids(txs)[i] == txs[i].hash;
      ChainTheorems.IdStored(chain, k, txs[i].hash);
      ShapedTx(txs[i], if i < main then i else main, k + 1, Runs.BlockHash(cfg, k));
    }
  }

  lemma {:induction false} ShapedTx(tx: Tx, index: int, number: int, hash: Hash)
    requires Scanner.TxShaped(tx, index, number, hash) && |tx.hash| == 32
    ensures ProperTx(tx, number)
  {
  }
}
