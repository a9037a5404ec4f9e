/** Virtual blocks, their transactions and logs, as the store keeps them. */
module ChainTypes {
  import opened Bytes
  import LogAbi
  import Egtx

  type Hash = seq<byte>

  datatype Log = Log(
    address: seq<byte>, topics: seq<Hash>, data: seq<byte>,
    blockNumber: int, txHash: Hash, txIndex: int, blockHash: Hash)

  datatype Tx = Tx(
    hash: Hash, index: int, blockNumber: int, blockHash: Hash, from: seq<byte>, to: seq<byte>, logs: seq<Log>)

  /** timestamp is always 0; size holds the local time, gasUsed the scanned main-chain height. */
  datatype Block = Block(
    number: nat, hash: Hash, parentHash: Hash, timestamp: int, size: int, gasUsed: int, txs: seq<Tx>)

  /** The transaction a derivation becomes in block (number, hash). */
  function MakeTx(txid: Hash, d: Egtx.Derivation, index: int, number: int, hash: Hash): Tx {
    Tx(txid, index, number, hash, d.from, d.to,
       [Log(d.contract, d.topics, LogAbi.Pack(d.content), number, txid, index, hash)])
  }

  function LogsOf(txs: seq<Tx>): seq<Log> {
    if txs == [] then [] else txs[0].logs + LogsOf(txs[1..])
  }

  lemma {:induction false} LogsOfConcat(a: seq<Tx>, b: seq<Tx>)
    ensures LogsOf(a + b) == LogsOf(a) + LogsOf(b)
  {
    if a == [] {
      assert a + b == b;
    } else {
      var rest := a[1..];
      LogsOfConcat(rest, b);
      assert (a + b)[1..] == rest + b && (a + b)[0] == a[0];
      assert LogsOf(a + b) == a[0].logs + LogsOf(rest + b);
    }
  }

  function Hashes(blocks: seq<Block>): seq<Hash> {
    seq(|blocks|, i requires 0 <= i < |blocks| => blocks[i].hash)
  }

  /** What these blocks send to the logs feed: one batch for each block that has logs. */
  function LogBatches(blocks: seq<Block>): seq<seq<Log>> {
    if blocks == [] then []
    else
      var logs := LogsOf(blocks[0].txs);
      (if logs == [] then [] else [logs]) + LogBatches(blocks[1..])
  }

  lemma {:induction false} BatchesConcat(a: seq<Block>, b: seq<Block>)
    ensures LogBatches(a + b) == LogBatches(a) + LogBatches(b)
  {
    hide LogsOf;
    if a == [] {
      assert a + b == b;
    } else {
      var rest := a[1..];
      BatchesConcat(rest, b);
      assert (a + b)[1..] == rest + b && (a + b)[0] == a[0];
      var logs := LogsOf(a[0].txs);
      assert LogBatches(a + b) == (if logs == [] then [] else [logs]) + LogBatches(rest + b);
    }
  }
}
