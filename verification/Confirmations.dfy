/** Refreshing the confirmation word of stored logs (api/backend.go). */
module Confirmations {
  import opened Bytes
  import opened LogAbi
  import opened ChainTypes
  import Egtx

  function Reversed(s: seq<byte>): (r: seq<byte>)
    ensures |r| == |s|
    ensures forall i :: 0 <= i < |s| ==> r[i] == s[|s| - 1 - i]
  {
    seq(|s|, i requires 0 <= i < |s| => s[|s| - 1 - i])
  }

  lemma ReversedTwice(s: seq<byte>)
    ensures Reversed(Reversed(s)) == s
  {
  }

  /** The two-index swap over a 32-byte hash is a full reversal. */
  method Flip(h: array<byte>)
    requires h.Length == 32
    modifies h
    ensures h[..] == Reversed(old(h[..]))
  {
    var i, j := 0, 31;
    while i < j
      invariant 0 <= i <= 16 && i + j == 31
      invariant forall k :: 0 <= k < i ==> h[k] == old(h[31 - k]) && h[31 - k] == old(h[k])
      invariant forall k :: i <= k <= j ==> h[k] == old(h[k])
    {
      h[i], h[j] := h[j], h[i];
      i, j := i + 1, j - 1;
    }
    assert forall k :: 0 <= k < 32 ==> h[k] == old(h[31 - k]);
  }

  /** Go's int32(x) of an unsigned count. */
  function ToInt32(n: nat): int {
    var m := n % 0x1_0000_0000;
    if m < 0x8000_0000 then m else m - 0x1_0000_0000
  }

  /** How many confirmations the node reports for a transaction id, -1 when it does not know it. */
  function ConfirmationsOf(lookup: Egtx.Lookup, txid: Hash): int {
    if txid in lookup then ToInt32(lookup[txid].confirmations) else -1
  }

  /** GetConfirmations takes the hash in wire order; the node's id is its reverse. */
  function GetConfirmations(lookup: Egtx.Lookup, hash: Hash): int {
    ConfirmationsOf(lookup, Reversed(hash))
  }

  /** uint64(c) of an int32, and all ones for -1. */
  function ConfirmationWord(c: int): (w: nat)
    requires -0x8000_0000 <= c < 0x8000_0000
    ensures w < TWO_256
    ensures c >= 0 ==> w == c
    ensures w == TWO_256 - 1 <==> c == -1
    ensures c < -1 ==> w == c + 0x1_0000_0000_0000_0000
  {
    if c == -1 then TWO_256 - 1 else if c < 0 then c + 0x1_0000_0000_0000_0000 else c
  }

  /** Log data with its first word overwritten; data shorter than a word is left alone. */
  function Patched(data: seq<byte>, c: int): (r: seq<byte>)
    requires -0x8000_0000 <= c < 0x8000_0000
    ensures |r| == |data| && (|data| < 32 ==> r == data)
    ensures |data| >= 32 ==> r[..32] == Word(ConfirmationWord(c)) && r[32..] == data[32..]
  {
    if |data| >= 32 then Word(ConfirmationWord(c)) + data[32..] else data
  }

  /** Overwriting the first word in place is the same as encoding again with the new count, so no
      other field of the log changes. */
  lemma {:induction false} PatchIsReencode(d: LogData, c: int)
    requires Encodable(d) && -0x8000_0000 <= c < 0x8000_0000
    ensures Patched(Pack(d), c) == Pack(d.(confirmations := ConfirmationWord(c)))
    ensures Unpack(Patched(Pack(d), c)) == Some(d.(confirmations := ConfirmationWord(c)))
  {
    var e := d.(confirmations := ConfirmationWord(c));
    HeadSplit(d);
    HeadSplit(e);
    assert forall k | 1 <= k <= 6 :: Offset(d, k) == Offset(e, k);
    RoundTrip(e);
  }

  lemma {:induction false} HeadSplit(d: LogData)
    ensures Pack(d) == Word(d.confirmations)
      + (EncodeWords([Offset(d, 1), Offset(d, 2), Offset(d, 3), Offset(d, 4), Offset(d, 5)]) + Joined(Fields(d)))
  {
    var rest := [Offset(d, 1), Offset(d, 2), Offset(d, 3), Offset(d, 4), Offset(d, 5)];
    var all := [d.confirmations] + rest;
    assert all[1..] == rest;
    assert EncodeWords(all) == Word(d.confirmations) + EncodeWords(rest);
  }

  function Refreshed(l: Log, lookup: Egtx.Lookup): Log {
    l.(data := Patched(l.data, ConfirmationsOf(lookup, l.txHash)))
  }

  function RefreshedAll(logs: seq<Log>, lookup: Egtx.Lookup): (r: seq<Log>)
    ensures |r| == |logs|
  {
    seq(|logs|, i requires 0 <= i < |logs| => Refreshed(logs[i], lookup))
  }

  /** What refreshing says: the log keeps everything but its data, whose content keeps everything but the count. The
      count is the node's for the log's transaction, and all ones exactly when the node does not know it (for counts
      that do not wrap to -1 as an int32). */
  lemma {:induction false} RefreshedMeans(l: Log, d: LogData, lookup: Egtx.Lookup)
    requires Encodable(d) && l.data == Pack(d)
    ensures var r := Refreshed(l, lookup);
            r == l.(data := r.data) && |r.data| == |l.data| && Unpack(r.data).Some?
    ensures var e, known := Unpack(Refreshed(l, lookup).data).value, l.txHash in lookup;
            && e == d.(confirmations := e.confirmations)
            && (known && lookup[l.txHash].confirmations < 0x8000_0000 ==>
                  e.confirmations == lookup[l.txHash].confirmations)
            && (!known ==> e.confirmations == TWO_256 - 1)
            && (known && lookup[l.txHash].confirmations % 0x1_0000_0000 != 0xffff_ffff ==>
                  e.confirmations != TWO_256 - 1)
  {
    var c := ConfirmationsOf(lookup, l.txHash);
    hide Pack, Unpack, Encodable, Word, ConfirmationWord;
    PatchIsReencode(d, c);
    AtLeastHead(d);
  }

  lemma {:induction false} AtLeastHead(d: LogData)
    ensures |Pack(d)| >= 192
  {
  }

  /** The loop of apiBackend.QueryLogs: copy the hash, flip the copy, ask the node, overwrite the word.
      The transaction asked for is the one the log was derived from. */
  method RefreshLogs(logs: array<Log>, lookup: Egtx.Lookup)
    requires forall i :: 0 <= i < logs.Length ==> |logs[i].txHash| == 32
    modifies logs
    ensures logs[..] == RefreshedAll(old(logs[..]), lookup)
  {
    ghost var was := logs[..];
    for i := 0 to logs.Length
      invariant forall k :: i <= k < logs.Length ==> logs[k] == was[k]
      invariant forall k :: 0 <= k < i ==> logs[k] == Refreshed(was[k], lookup)
    {
      var l := logs[i];
      if |l.data| >= 32 {
        var c := AskNode(l.txHash, lookup);
        logs[i] := l.(data := Word(ConfirmationWord(c)) + l.data[32..]);
      }
    }
  }

  method AskNode(txHash: Hash, lookup: Egtx.Lookup) returns (c: int)
    requires |txHash| == 32
    ensures c == ConfirmationsOf(lookup, txHash)
    ensures txHash !in lookup ==> c == -1
    ensures txHash in lookup && lookup[txHash].confirmations < 0x8000_0000 ==> c == lookup[txHash].confirmations
  {
    var h := new byte[32](i requires 0 <= i < 32 => txHash[i]);
    assert h[..] == txHash;
    Flip(h);
    ReversedTwice(txHash);
    c := GetConfirmations(lookup, h[..]);
  }

  function RefreshedTx(tx: Tx, lookup: Egtx.Lookup): Tx {
    tx.(logs := seq(|tx.logs|, i requires 0 <= i < |tx.logs| =>
      tx.logs[i].(data := Patched(tx.logs[i].data, ConfirmationsOf(lookup, tx.hash)))))
  }

  function RefreshedTxs(txs: seq<Tx>, lookup: Egtx.Lookup): seq<Tx> {
    seq(|txs|, i requires 0 <= i < |txs| => RefreshedTx(txs[i], lookup))
  }

  /** The nested loops of GetTxListByHeightWithRange. */
  method RefreshTxs(txs: seq<Tx>, lookup: Egtx.Lookup) returns (r: seq<Tx>)
    requires forall i :: 0 <= i < |txs| ==> |txs[i].hash| == 32
    ensures r == RefreshedTxs(txs, lookup)
  {
    r := [];
    for k := 0 to |txs|
      invariant r == RefreshedTxs(txs[..k], lookup)
    {
      var tx := txs[k];
      var logs := tx.logs;
      for i := 0 to |tx.logs|
        invariant |logs| == |tx.logs|
        invariant forall m :: i <= m < |logs| ==> logs[m] == tx.logs[m]
        invariant forall m :: 0 <= m < i ==>
          logs[m] == tx.logs[m].(data := Patched(tx.logs[m].data, ConfirmationsOf(lookup, tx.hash)))
      {
        if |logs[i].data| >= 32 {
          var c := AskNode(tx.hash, lookup);
          logs := logs[i := logs[i].(data := Word(ConfirmationWord(c)) + logs[i].data[32..])];
        }
      }
      assert tx.(logs := logs) == RefreshedTx(tx, lookup);
      r := r + [tx.(logs := logs)];
    }
    assert txs[..|txs|] == txs;
  }
}
