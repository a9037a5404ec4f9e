/** eth_getLogs over the stored chain (rpc/api/filters/filter_api.go, store/store.go, api/backend.go). */
module Queries {
  import opened Bytes
  import opened ChainTypes
  import opened Filters
  import opened Confirmations
  import Egtx

  const MAX_LOG_RESULTS: nat := 2000
  const TWO_32: int := 0x1_0000_0000

  datatype Criteria = Criteria(
    from: Option<int>, to: Option<int>, blockHash: Option<Hash>, addresses: seq<seq<byte>>, topics: seq<seq<Hash>>)

  datatype Answer = BlockNotFound | TooManyResults | StoreError | Logs(logs: seq<Log>)

  /** The database behind a query: which stored transactions decode, and the log index with its candidates
      for heights start <= h < end in chain order, the most entries it hands out for one query, and whether
      the query itself fails. */
  datatype Index = Index(decodes: Tx -> bool, candidates: (int, int) -> seq<Tx>, limit: nat, failed: bool)

  /** What the log index hands to the callback: a transaction, one that does not decode, or the mark that
      the entry limit was hit. */
  datatype Entry = Found(tx: Tx) | Undecodable | TooMany

  /** The chain as every run leaves it (see Runs): numbered from 1, each log naming its transaction, with
      32-byte hashes and at most four topics. */
  ghost predicate Proper(chain: seq<Block>) {
    forall k :: 0 <= k < |chain| ==> chain[k].number == k + 1 && ProperTxs(chain[k].txs, k + 1)
  }

  ghost predicate ProperTxs(txs: seq<Tx>, number: int) {
    forall i :: 0 <= i < |txs| ==> ProperTx(txs[i], number)
  }

  ghost predicate ProperTx(tx: Tx, number: int) {
    SoundTx(tx) && forall j :: 0 <= j < |tx.logs| ==> tx.logs[j].blockNumber == number
  }

  ghost predicate SoundTx(tx: Tx) {
    && |tx.hash| == 32 && LogsNameTx(tx)
    && forall j :: 0 <= j < |tx.logs| ==> |tx.logs[j].topics| <= 4
  }

  ghost predicate LogsNameTx(tx: Tx) {
    forall j :: 0 <= j < |tx.logs| ==> tx.logs[j].txHash == tx.hash
  }

  // ---------------------------------------------------------------- the plain meaning of a query

  /** The transactions of the blocks with lo <= number <= hi, in chain order. */
  function TxsBetween(chain: seq<Block>, lo: int, hi: int): seq<Tx> {
    if chain == [] then []
    else
      var b := chain[|chain| - 1];
      TxsBetween(chain[..|chain| - 1], lo, hi) + (if lo <= b.number <= hi then b.txs else [])
  }

  /** A filter over the whole chain. */
  function Expected(chain: seq<Block>, lo: int, hi: int, addresses: seq<seq<byte>>, topics: seq<seq<Hash>>): seq<Log> {
    MatchLogs(Between(chain, lo, hi), addresses, topics)
  }

  function FindBlock(chain: seq<Block>, hash: Hash): Option<Block> {
    if chain == [] then None
    else if chain[|chain| - 1].hash == hash then Some(chain[|chain| - 1])
    else FindBlock(chain[..|chain| - 1], hash)
  }

  /** "latest" and every other negative number mean the newest block. */
  function Height(bound: Option<int>, chain: seq<Block>): int {
    if bound.None? || bound.value < 0 then |chain| else bound.value
  }

  /** The closed height range a query asks about. */
  function RangeOf(chain: seq<Block>, crit: Criteria): Option<(int, int)> {
    if crit.blockHash.None? then Some((Height(crit.from, chain), Height(crit.to, chain)))
    else
      var b := FindBlock(chain, crit.blockHash.value);
      if b.None? then None else Some((b.value.number, b.value.number))
  }

  // ---------------------------------------------------------------- height-range path

  function TxsAt(chain: seq<Block>, height: int): seq<Tx> {
    if 1 <= height <= |chain| then chain[height - 1].txs else []
  }

  function Uint32(n: int): int {
    n % TWO_32
  }

  lemma SmallHeight(n: int)
    requires 0 <= n < TWO_32
    ensures Uint32(n) == n
  {
  }

  lemma {:induction false} BeyondHi(chain: seq<Block>, lo: int, hi: int)
    requires Proper(chain) && hi >= |chain|
    ensures TxsBetween(chain, lo, hi) == TxsBetween(chain, lo, hi + 1)
  {
    if chain != [] {
      BeyondHi(chain[..|chain| - 1], lo, hi);
    }
  }

  /** Adding one more height adds the transactions stored at that height. */
  lemma {:induction false} OneMoreHeight(chain: seq<Block>, lo: int, hi: int)
    requires Proper(chain) && lo <= hi + 1
    ensures TxsBetween(chain, lo, hi + 1) == TxsBetween(chain, lo, hi) + TxsAt(chain, hi + 1)
  {
    if chain == [] {
    } else if hi >= |chain| {
      BeyondHi(chain, lo, hi);
    } else {
      var front := chain[..|chain| - 1];
      if hi + 1 == |chain| {
        BeyondHi(front, lo, hi);
      } else {
        OneMoreHeight(front, lo, hi);
      }
    }
  }

  lemma {:induction false} NothingBelow(chain: seq<Block>, lo: int, hi: int)
    requires hi < lo
    ensures TxsBetween(chain, lo, hi) == []
  {
    if chain != [] {
      NothingBelow(chain[..|chain| - 1], lo, hi);
    }
  }

  lemma {:induction false} OneHeight(chain: seq<Block>, k: nat)
    requires Proper(chain) && k < |chain|
    ensures TxsBetween(chain, k + 1, k + 1) == chain[k].txs
  {
    NothingBelow(chain, k + 1, k);
    OneMoreHeight(chain, k + 1, k);
  }

  lemma {:induction false} RefreshedConcat(a: seq<Tx>, b: seq<Tx>, lookup: Egtx.Lookup)
    requires forall i :: 0 <= i < |b| ==> LogsNameTx(b[i])
    ensures RefreshedAll(LogsOf(a + b), lookup) == RefreshedAll(LogsOf(a), lookup) + LogsOf(RefreshedTxs(b, lookup))
  {
    LogsOfConcat(a, b);
    RefreshedLogs(b, lookup);
  }

  lemma {:induction false} RefreshedLogs(txs: seq<Tx>, lookup: Egtx.Lookup)
    requires forall i :: 0 <= i < |txs| ==> LogsNameTx(txs[i])
    ensures LogsOf(RefreshedTxs(txs, lookup)) == RefreshedAll(LogsOf(txs), lookup)
  {
    if txs != [] {
      RefreshedLogs(txs[1..], lookup);
      assert RefreshedTxs(txs, lookup)[1..] == RefreshedTxs(txs[1..], lookup);
      assert LogsNameTx(txs[0]);
      assert RefreshedTx(txs[0], lookup).logs == RefreshedAll(txs[0].logs, lookup);
    }
  }

  /** The transactions stored at this height all decode. */
  ghost predicate ReadsAt(chain: seq<Block>, h: int, decodes: Tx -> bool) {
    forall i :: 0 <= i < |TxsAt(chain, h)| ==> decodes(TxsAt(chain, h)[i])
  }

  /** The loop over the heights gets to h: what is below it is not too much already. */
  ghost predicate AsksHeight(chain: seq<Block>, lo: int, hi: int, h: int) {
    lo <= h <= hi && |Between(chain, lo, h - 1)| <= MAX_LOG_RESULTS
  }

  ghost predicate Unreadable(chain: seq<Block>, lo: int, hi: int, decodes: Tx -> bool) {
    exists h :: AsksHeight(chain, lo, hi, h) && !ReadsAt(chain, h, decodes)
  }

  /** What the height-range path answers: everything between the two heights unless it is too much or the
      loop gets to a height that does not decode. */
  ghost function RangeAnswer(chain: seq<Block>, lo: int, hi: int, decodes: Tx -> bool, lookup: Egtx.Lookup): Answer {
    var logs := Between(chain, lo, hi);
    if Unreadable(chain, lo, hi, decodes) then StoreError
    else if |logs| > MAX_LOG_RESULTS then TooManyResults
    else Logs(RefreshedAll(logs, lookup))
  }

  /** getLogsByBlockNumberRange: the logs of every height in [begin, end), confirmations refreshed, unless
      they are more than the limit or do not decode. */
  method GetLogsByBlockNumberRange(chain: seq<Block>, begin: int, end: int, decodes: Tx -> bool, lookup: Egtx.Lookup)
    returns (r: Answer)
    requires Proper(chain) && 0 <= begin && end <= TWO_32
    ensures r == RangeAnswer(chain, begin, end - 1, decodes, lookup)
  {
    var all := [];
    var i := begin;
    NoHeights(chain, begin, lookup);
    hide Between, TxsBetween, LogsOf, RefreshedAll, Proper, ReadsAt;
    while i < end
      invariant begin <= i && (i <= end || i == begin)
      invariant all == RefreshedAll(Between(chain, begin, i - 1), lookup)
      invariant |all| <= MAX_LOG_RESULTS
      invariant forall h :: begin <= h < i ==> ReadsAt(chain, h, decodes)
    {
      var more := LogsAtHeight(chain, begin, i, decodes, lookup);
      if more.None? {
        assert AsksHeight(chain, begin, end - 1, i);
        return StoreError;
      }
      all := all + more.value;
      if |all| > MAX_LOG_RESULTS {
        TooMuchAt(chain, begin, i, end - 1, decodes);
        return TooManyResults;
      }
      i := i + 1;
    }
    if end < begin {
      NoneBetween(chain, begin, end - 1);
      NoneBetween(chain, begin, begin - 1);
    }
    return Logs(all);
  }

  /** When the logs up to height i are too much, no later height is asked for. */
  lemma {:induction false} TooMuchAt(chain: seq<Block>, lo: int, i: int, hi: int, decodes: Tx -> bool)
    requires Proper(chain) && lo <= i <= hi && |Between(chain, lo, i)| > MAX_LOG_RESULTS
    requires forall h :: lo <= h <= i ==> ReadsAt(chain, h, decodes)
    ensures |Between(chain, lo, hi)| > MAX_LOG_RESULTS && !Unreadable(chain, lo, hi, decodes)
  {
    hide Between, Proper, ReadsAt;
    MoreLogs(chain, lo, i, hi);
    forall h | AsksHeight(chain, lo, hi, h)
      ensures ReadsAt(chain, h, decodes)
    {
      if h > i {
        MoreLogs(chain, lo, i, h - 1);
      }
    }
  }

  /** The logs of one more height, refreshed, unless a transaction stored there does not decode. */
  method LogsAtHeight(chain: seq<Block>, lo: int, h: int, decodes: Tx -> bool, lookup: Egtx.Lookup)
    returns (more: Option<seq<Log>>)
    requires Proper(chain) && 0 <= lo <= h < TWO_32
    ensures more.Some? <==> ReadsAt(chain, h, decodes)
    ensures more.Some? ==>
              RefreshedAll(Between(chain, lo, h), lookup)
              == RefreshedAll(Between(chain, lo, h - 1), lookup) + more.value
  {
    NextHeight(chain, lo, h, lookup);
    SmallHeight(h);
    hide TxsBetween, LogsOf, RefreshedAll, RefreshedTxs, Proper;
    var txs := TxsAt(chain, Uint32(h));
    for i := 0 to |txs|
      invariant forall k :: 0 <= k < i ==> decodes(txs[k])
    {
      if !decodes(txs[i]) {
        return None;
      }
    }
    var refreshed := RefreshTxs(txs, lookup);
    var logs := AppendLogs(refreshed);
    more := Some(logs);
  }

  function Between(chain: seq<Block>, lo: int, hi: int): seq<Log> {
    LogsOf(TxsBetween(chain, lo, hi))
  }

  lemma {:induction false} NoneBetween(chain: seq<Block>, lo: int, hi: int)
    requires hi < lo
    ensures Between(chain, lo, hi) == []
  {
    NothingBelow(chain, lo, hi);
  }

  lemma {:induction false} NoHeights(chain: seq<Block>, lo: int, lookup: Egtx.Lookup)
    ensures RefreshedAll(Between(chain, lo, lo - 1), lookup) == []
  {
    NoneBetween(chain, lo, lo - 1);
  }

  method AppendLogs(txs: seq<Tx>) returns (all: seq<Log>)
    ensures all == LogsOf(txs)
  {
    all := [];
    for k := 0 to |txs|
      invariant all == LogsOf(txs[..k])
    {
      LogsNext(txs, k);
      all := all + txs[k].logs;
    }
    assert txs[..|txs|] == txs;
  }

  lemma {:induction false} NextHeight(chain: seq<Block>, lo: int, h: int, lookup: Egtx.Lookup)
    requires Proper(chain) && lo <= h
    ensures forall i :: 0 <= i < |TxsAt(chain, h)| ==> |TxsAt(chain, h)[i].hash| == 32
    ensures RefreshedAll(LogsOf(TxsBetween(chain, lo, h)), lookup)
         == RefreshedAll(LogsOf(TxsBetween(chain, lo, h - 1)), lookup) + LogsOf(RefreshedTxs(TxsAt(chain, h), lookup))
  {
    OneMoreHeight(chain, lo, h - 1);
    var txs := TxsAt(chain, h);
    assert 1 <= h <= |chain| ==> ProperTxs(txs, h);
    assert forall i :: 0 <= i < |txs| ==> ProperTx(txs[i], h);
    RefreshedConcat(TxsBetween(chain, lo, h - 1), txs, lookup);
  }

  lemma {:induction false} LogsNext(txs: seq<Tx>, k: nat)
    requires k < |txs|
    ensures LogsOf(txs[..k + 1]) == LogsOf(txs[..k]) + txs[k].logs
  {
    assert txs[..k + 1] == txs[..k] + [txs[k]];
    LogsOfConcat(txs[..k], [txs[k]]);
    assert [txs[k]][1..] == [] && LogsOf([txs[k]]) == txs[k].logs + LogsOf([]);
  }

  lemma {:induction false} MoreLogs(chain: seq<Block>, lo: int, mid: int, hi: int)
    requires Proper(chain) && lo <= mid <= hi
    ensures |Between(chain, lo, mid)| <= |Between(chain, lo, hi)|
    decreases hi - mid
  {
    if mid < hi {
      OneMoreHeight(chain, lo, mid);
      LogsOfConcat(TxsBetween(chain, lo, mid), TxsAt(chain, mid + 1));
      MoreLogs(chain, lo, mid + 1, hi);
    }
  }

  // ---------------------------------------------------------------- indexed path

  /** picked leaves out of txs only transactions without a matching log, and keeps their order. */
  ghost predicate Thinned(txs: seq<Tx>, picked: seq<Tx>, addresses: seq<seq<byte>>, topics: seq<seq<Hash>>) {
    if txs == [] then picked == []
    else
      || (picked != [] && picked[0] == txs[0] && Thinned(txs[1..], picked[1..], addresses, topics))
      || (MatchLogs(txs[0].logs, addresses, topics) == [] && Thinned(txs[1..], picked, addresses, topics))
  }

  /** The entries for the callback: the candidates up to the limit, then the mark if there are more. */
  function Entries(cands: seq<Tx>, decodes: Tx -> bool, limit: nat): seq<Entry> {
    if cands == [] then []
    else if limit == 0 then [TooMany]
    else [if decodes(cands[0]) then Found(cands[0]) else Undecodable] + Entries(cands[1..], decodes, limit - 1)
  }

  /** Up to the limit every candidate is an entry, in order; beyond it there is one mark and nothing else. */
  lemma {:induction false} EntriesShape(cands: seq<Tx>, decodes: Tx -> bool, limit: nat)
    ensures var entries := Entries(cands, decodes, limit);
            && |entries| == (if |cands| <= limit then |cands| else limit + 1)
            && (|cands| > limit ==> entries[limit] == TooMany)
            && forall i :: 0 <= i < |cands| && i < limit ==>
                 entries[i] == if decodes(cands[i]) then Found(cands[i]) else Undecodable
  {
    if cands != [] && limit > 0 {
      EntriesShape(cands[1..], decodes, limit - 1);
    }
  }

  /** The transactions handed over before the first entry that stops the callback. */
  function Usable(entries: seq<Entry>): seq<Tx> {
    if entries == [] || !entries[0].Found? then [] else [entries[0].tx] + Usable(entries[1..])
  }

  /** The position of the first candidate the callback does not get: the first beyond the limit or the
      first that does not decode. */
  function Cut(cands: seq<Tx>, decodes: Tx -> bool, limit: nat): (n: nat)
    ensures n <= |cands|
    ensures n == |cands| <==> |cands| <= limit && forall i :: 0 <= i < |cands| ==> decodes(cands[i])
  {
    if cands == [] || limit == 0 || !decodes(cands[0]) then 0 else 1 + Cut(cands[1..], decodes, limit - 1)
  }

  lemma {:induction false} UsableBeforeCut(cands: seq<Tx>, decodes: Tx -> bool, limit: nat)
    ensures Usable(Entries(cands, decodes, limit)) == cands[..Cut(cands, decodes, limit)]
  {
    if cands != [] && limit > 0 && decodes(cands[0]) {
      var rest := cands[1..];
      UsableBeforeCut(rest, decodes, limit - 1);
      var entries := Entries(cands, decodes, limit);
      assert entries[0] == Found(cands[0]) && entries[1..] == Entries(rest, decodes, limit - 1);
      assert Usable(entries) == [cands[0]] + Usable(Entries(rest, decodes, limit - 1));
      hide Usable, Entries;
      var n := Cut(rest, decodes, limit - 1);
      assert cands[..1 + n] == [cands[0]] + rest[..n];
    }
  }

  /** No candidate the callback does not get has a matching log. */
  ghost predicate NothingCutOff(cands: seq<Tx>, decodes: Tx -> bool, limit: nat, addresses: seq<seq<byte>>,
                                topics: seq<seq<Hash>>) {
    forall i :: Cut(cands, decodes, limit) <= i < |cands| ==> MatchLogs(cands[i].logs, addresses, topics) == []
  }

  /** What the indexed path answers. An entry that stops the callback leaves no trace in it. */
  function IndexedAnswer(cands: seq<Tx>, decodes: Tx -> bool, limit: nat, failed: bool, addresses: seq<seq<byte>>,
                         topics: seq<seq<Hash>>, lookup: Egtx.Lookup): Answer {
    if failed then StoreError
    else Logs(RefreshedAll(MatchLogs(LogsOf(Usable(Entries(cands, decodes, limit))), addresses, topics), lookup))
  }

  /** The contract of the log index for heights start <= h < end: every transaction with a matching log, in
      chain order, none twice. */
  ghost predicate IndexSound(chain: seq<Block>, addresses: seq<seq<byte>>, topics: seq<seq<Hash>>, index: Index) {
    forall start, end ::
      Thinned(TxsBetween(chain, start, end - 1), index.candidates(start, end), addresses, topics)
  }

  ghost predicate SoundTxs(txs: seq<Tx>) {
    forall i :: 0 <= i < |txs| ==> SoundTx(txs[i])
  }

  /** The callback's work on one transaction: the topics go through a fixed array of four. */
  method FilterTx(tx: Tx, addresses: seq<seq<byte>>, topics: seq<seq<Hash>>) returns (logs: seq<Log>)
    requires forall j :: 0 <= j < |tx.logs| ==> |tx.logs[j].topics| <= 4
    ensures logs == MatchLogs(tx.logs, addresses, topics)
  {
    var topicArr := new Hash[4];
    logs := [];
    for j := 0 to |tx.logs|
      invariant logs == MatchLogs(tx.logs[..j], addresses, topics)
    {
      var l := tx.logs[j];
      for i := 0 to |l.topics|
        invariant forall k :: 0 <= k < i ==> topicArr[k] == l.topics[k]
      {
        topicArr[i] := l.topics[i];
      }
      assert topicArr[..|l.topics|] == l.topics;
      assert tx.logs[..j + 1][..j] == tx.logs[..j];
      var ok := FilterFunc(l.address, topicArr[..|l.topics|], addresses, topics);
      if ok {
        logs := logs + [l];
      }
    }
    assert tx.logs[..|tx.logs|] == tx.logs;
  }

  /** ChainLogDB.QueryLogs: an entry that stops the callback also sets an error, but the index's own return
      value then replaces it, so the caller sees a shorter list and dbError. */
  method StoreQueryLogs(entries: seq<Entry>, dbError: bool, addresses: seq<seq<byte>>, topics: seq<seq<Hash>>)
    returns (logs: seq<Log>, error: bool)
    requires SoundTxs(Usable(entries))
    ensures logs == MatchLogs(LogsOf(Usable(entries)), addresses, topics)
    ensures error == dbError
  {
    logs, error := [], false;
    ghost var done := [];
    assert MatchLogs(LogsOf([]), addresses, topics) == [];
    assert entries[0..] == entries;
    hide MatchLogs, LogsOf, SoundTx, Usable;
    for i := 0 to |entries|
      invariant Usable(entries) == done + Usable(entries[i..])
      invariant logs == MatchLogs(LogsOf(done), addresses, topics)
    {
      UsableStep(entries, i, done);
      match entries[i] {
        case TooMany => error := true; break;
        case Undecodable => error := true; break;
        case Found(tx) =>
          assert Usable(entries)[|done|] == tx;
          var more := FilterTx(tx, addresses, topics);
          MatchNext(done, tx, addresses, topics);
          logs := logs + more;
          done := done + [tx];
      }
    }
    assert Usable(entries) == done by { UsableNone(entries); }
    error := dbError;
  }

  lemma {:induction false} UsableStep(entries: seq<Entry>, i: nat, done: seq<Tx>)
    requires i < |entries| && Usable(entries) == done + Usable(entries[i..])
    ensures entries[i].Found? ==>
              && |done| < |Usable(entries)| && Usable(entries)[|done|] == entries[i].tx
              && Usable(entries) == (done + [entries[i].tx]) + Usable(entries[i + 1..])
    ensures !entries[i].Found? ==> Usable(entries) == done
  {
    assert entries[i..][0] == entries[i] && entries[i..][1..] == entries[i + 1..];
    if entries[i].Found? {
      assert Usable(entries[i..]) == [entries[i].tx] + Usable(entries[i + 1..]);
      hide Usable;
      Associative(done, [entries[i].tx], Usable(entries[i + 1..]));
    }
  }

  lemma {:induction false} UsableNone(entries: seq<Entry>)
    ensures Usable(entries[|entries|..]) == []
  {
  }

  lemma {:induction false} MatchNext(txs: seq<Tx>, tx: Tx, addresses: seq<seq<byte>>, topics: seq<seq<Hash>>)
    ensures MatchLogs(LogsOf(txs + [tx]), addresses, topics)
         == MatchLogs(LogsOf(txs), addresses, topics) + MatchLogs(tx.logs, addresses, topics)
  {
    LogsOfConcat(txs, [tx]);
    assert [tx][1..] == [] && LogsOf([tx]) == tx.logs + LogsOf([]);
    assert tx.logs + [] == tx.logs;
    MatchConcat(LogsOf(txs), tx.logs, addresses, topics);
  }

  /** Leaving out transactions without matches loses nothing. */
  lemma {:induction false} ThinnedSame(txs: seq<Tx>, picked: seq<Tx>, addresses: seq<seq<byte>>, topics: seq<seq<Hash>>)
    requires Thinned(txs, picked, addresses, topics)
    ensures MatchLogs(LogsOf(picked), addresses, topics) == MatchLogs(LogsOf(txs), addresses, topics)
    decreases |txs|
  {
    if txs != [] {
      MatchConcat(txs[0].logs, LogsOf(txs[1..]), addresses, topics);
      if picked != [] && picked[0] == txs[0] && Thinned(txs[1..], picked[1..], addresses, topics) {
        ThinnedSame(txs[1..], picked[1..], addresses, topics);
        MatchConcat(picked[0].logs, LogsOf(picked[1..]), addresses, topics);
      } else {
        ThinnedSame(txs[1..], picked, addresses, topics);
      }
    }
  }

  lemma {:induction false} ThinnedWithin(txs: seq<Tx>, picked: seq<Tx>, addresses: seq<seq<byte>>,
                                         topics: seq<seq<Hash>>)
    requires Thinned(txs, picked, addresses, topics)
    ensures forall i :: 0 <= i < |picked| ==> picked[i] in txs
    decreases |txs|
  {
    if txs != [] {
      if picked != [] && picked[0] == txs[0] && Thinned(txs[1..], picked[1..], addresses, topics) {
        ThinnedWithin(txs[1..], picked[1..], addresses, topics);
      } else {
        ThinnedWithin(txs[1..], picked, addresses, topics);
      }
    }
  }

  lemma {:induction false} BetweenProper(chain: seq<Block>, lo: int, hi: int)
    requires Proper(chain)
    ensures SoundTxs(TxsBetween(chain, lo, hi))
  {
    if chain != [] {
      BetweenProper(chain[..|chain| - 1], lo, hi);
      var txs := chain[|chain| - 1].txs;
      assert ProperTxs(txs, |chain|);
      assert forall i :: 0 <= i < |txs| ==> ProperTx(txs[i], |chain|);
    }
  }

  lemma {:induction false} NoMatches(txs: seq<Tx>, addresses: seq<seq<byte>>, topics: seq<seq<Hash>>)
    ensures MatchLogs(LogsOf(txs), addresses, topics) == []
            <==> forall i :: 0 <= i < |txs| ==> MatchLogs(txs[i].logs, addresses, topics) == []
  {
    if txs != [] {
      NoMatches(txs[1..], addresses, topics);
      MatchConcat(txs[0].logs, LogsOf(txs[1..]), addresses, topics);
      hide MatchLogs;
      assert forall i :: 1 <= i < |txs| ==> txs[i] == txs[1..][i - 1];
    }
  }

  /** The callback sees all matching logs of the candidates exactly when nothing is cut off. */
  lemma {:induction false} SeesAllIff(cands: seq<Tx>, decodes: Tx -> bool, limit: nat, addresses: seq<seq<byte>>,
                                      topics: seq<seq<Hash>>)
    ensures var seen, all := LogsOf(Usable(Entries(cands, decodes, limit))), LogsOf(cands);
            && (|MatchLogs(seen, addresses, topics)| == |MatchLogs(all, addresses, topics)|
                <==> NothingCutOff(cands, decodes, limit, addresses, topics))
            && (NothingCutOff(cands, decodes, limit, addresses, topics) ==>
                  MatchLogs(seen, addresses, topics) == MatchLogs(all, addresses, topics))
  {
    hide MatchLogs, LogsOf, Usable, Entries, Cut;
    var n := Cut(cands, decodes, limit);
    var seen, missed := cands[..n], cands[n..];
    UsableBeforeCut(cands, decodes, limit);
    assert cands == seen + missed;
    LogsOfConcat(seen, missed);
    MatchConcat(LogsOf(seen), LogsOf(missed), addresses, topics);
    NoMatches(missed, addresses, topics);
    assert forall i :: n <= i < |cands| ==> cands[i] == missed[i - n];
  }

  /** The indexed path gives the plain filter exactly when the index neither fails nor cuts off a match. */
  lemma {:induction false} IndexedIff(txs: seq<Tx>, cands: seq<Tx>, decodes: Tx -> bool, limit: nat, failed: bool,
                                      addresses: seq<seq<byte>>, topics: seq<seq<Hash>>, lookup: Egtx.Lookup)
    requires Thinned(txs, cands, addresses, topics)
    ensures IndexedAnswer(cands, decodes, limit, failed, addresses, topics, lookup)
            == Logs(RefreshedAll(MatchLogs(LogsOf(txs), addresses, topics), lookup))
            <==> !failed && NothingCutOff(cands, decodes, limit, addresses, topics)
  {
    hide Thinned, MatchLogs, LogsOf, Usable, Entries, NothingCutOff, Refreshed;
    ThinnedSame(txs, cands, addresses, topics);
    SeesAllIff(cands, decodes, limit, addresses, topics);
    var seen := MatchLogs(LogsOf(Usable(Entries(cands, decodes, limit))), addresses, topics);
    assert |RefreshedAll(seen, lookup)| == |seen|;
  }

  /** The two paths answer the same for a query without addresses and topics exactly when both report an error
      of the store, or neither does, the result is within the limit of the range path, and no log is cut off. */
  lemma {:induction false} PathsAgree(chain: seq<Block>, lo: int, hi: int, cands: seq<Tx>, decodes: Tx -> bool,
                                      limit: nat, failed: bool, lookup: Egtx.Lookup)
    requires Thinned(TxsBetween(chain, lo, hi), cands, [], [])
    ensures IndexedAnswer(cands, decodes, limit, failed, [], [], lookup) == RangeAnswer(chain, lo, hi, decodes, lookup)
            <==> (if Unreadable(chain, lo, hi, decodes) then failed
                  else
                    && !failed && |Between(chain, lo, hi)| <= MAX_LOG_RESULTS
                    && NothingCutOff(cands, decodes, limit, [], []))
  {
    hide TxsBetween, Thinned, MatchLogs, LogsOf, Usable, Entries, NothingCutOff, RefreshedAll, Unreadable;
    MatchEverything(Between(chain, lo, hi));
    IndexedIff(TxsBetween(chain, lo, hi), cands, decodes, limit, failed, [], [], lookup);
  }

  // ---------------------------------------------------------------- eth_getLogs

  /** What GetLogs answers, said without its two paths: filter the whole chain by range, addresses and
      topics, and refresh the confirmation word of what is left. */
  function Answered(chain: seq<Block>, crit: Criteria, lookup: Egtx.Lookup): Answer {
    var range := RangeOf(chain, crit);
    if range.None? then BlockNotFound
    else
      var logs := Expected(chain, range.value.0, range.value.1, crit.addresses, crit.topics);
      if crit.addresses == [] && crit.topics == [] && |logs| > MAX_LOG_RESULTS then TooManyResults
      else Logs(RefreshedAll(logs, lookup))
  }

  ghost predicate SmallRange(chain: seq<Block>, crit: Criteria) {
    var range := RangeOf(chain, crit);
    range.Some? ==> range.value.0 < TWO_32 && range.value.1 < TWO_32 - 1
  }

  method BlockByHash(chain: seq<Block>, hash: Hash) returns (b: Option<Block>)
    ensures b == FindBlock(chain, hash)
  {
    var k := |chain|;
    assert chain[..|chain|] == chain;
    while k > 0
      invariant 0 <= k <= |chain| && FindBlock(chain, hash) == FindBlock(chain[..k], hash)
    {
      k := k - 1;
      assert chain[..k + 1][..k] == chain[..k];
      if chain[k].hash == hash {
        return Some(chain[k]);
      }
    }
    return None;
  }

  /** apiBackend.QueryLogs: an error of the index ends it, otherwise the confirmations are refreshed. */
  method QueryLogs(entries: seq<Entry>, dbError: bool, addresses: seq<seq<byte>>, topics: seq<seq<Hash>>,
                   lookup: Egtx.Lookup)
    returns (logs: seq<Log>, error: bool)
    requires SoundTxs(Usable(entries))
    ensures error == dbError
    ensures !error ==> logs == RefreshedAll(MatchLogs(LogsOf(Usable(entries)), addresses, topics), lookup)
  {
    logs, error := StoreQueryLogs(entries, dbError, addresses, topics);
    if error {
      return;
    }
    HashSizes(Usable(entries), addresses, topics);
    var buffer := new Log[|logs|](i requires 0 <= i < |logs| => logs[i]);
    assert buffer[..] == logs;
    RefreshLogs(buffer, lookup);
    logs := buffer[..];
  }

  lemma {:induction false} HashSizes(txs: seq<Tx>, addresses: seq<seq<byte>>, topics: seq<seq<Hash>>)
    requires SoundTxs(txs)
    ensures var logs := MatchLogs(LogsOf(txs), addresses, topics);
            forall i :: 0 <= i < |logs| ==> |logs[i].txHash| == 32
  {
    SizesOf(txs);
    MatchesAreLogs(LogsOf(txs), addresses, topics);
    var logs := MatchLogs(LogsOf(txs), addresses, topics);
    assert forall i :: 0 <= i < |logs| ==> logs[i] in LogsOf(txs);
  }

  lemma {:induction false} SizesOf(txs: seq<Tx>)
    requires SoundTxs(txs)
    ensures forall i :: 0 <= i < |LogsOf(txs)| ==> |LogsOf(txs)[i].txHash| == 32
  {
    if txs != [] {
      SizesOf(txs[1..]);
      assert SoundTx(txs[0]);
    }
  }

  lemma {:induction false} MatchesAreLogs(logs: seq<Log>, addresses: seq<seq<byte>>, topics: seq<seq<Hash>>)
    ensures forall l :: l in MatchLogs(logs, addresses, topics) ==> l in logs
  {
    if logs != [] {
      MatchesAreLogs(logs[..|logs| - 1], addresses, topics);
    }
  }

  /** What GetLogs answers, path by path. */
  ghost function Outcome(chain: seq<Block>, crit: Criteria, index: Index, lookup: Egtx.Lookup): Answer {
    var range := RangeOf(chain, crit);
    if range.None? then BlockNotFound
    else
      var (lo, hi) := range.value;
      if crit.addresses == [] && crit.topics == [] then RangeAnswer(chain, lo, hi, index.decodes, lookup)
      else
        IndexedAnswer(index.candidates(lo, hi + 1), index.decodes, index.limit, index.failed, crit.addresses,
                      crit.topics, lookup)
  }

  /** What a caller can check about a query: the range path gets to no height that does not decode, or the
      index neither fails nor cuts off a candidate with a matching log. */
  ghost predicate Answerable(chain: seq<Block>, crit: Criteria, index: Index) {
    var range := RangeOf(chain, crit);
    range.None? ||
    (var (lo, hi) := range.value;
     if crit.addresses == [] && crit.topics == [] then !Unreadable(chain, lo, hi, index.decodes)
     else
       && !index.failed
       && NothingCutOff(index.candidates(lo, hi + 1), index.decodes, index.limit, crit.addresses, crit.topics))
  }

  /** GetLogs reports an error of the store. */
  ghost predicate Reports(chain: seq<Block>, crit: Criteria, index: Index) {
    var range := RangeOf(chain, crit);
    range.Some? &&
    (if crit.addresses == [] && crit.topics == []
     then Unreadable(chain, range.value.0, range.value.1, index.decodes) else index.failed)
  }

  /** GetLogs answers with the plain filter over the chain if and only if the query is answerable, and the
      indexed path reports an error only if the index itself failed: a query that is cut off looks complete. */
  lemma {:induction false} AnsweredIff(chain: seq<Block>, crit: Criteria, index: Index, lookup: Egtx.Lookup)
    requires IndexSound(chain, crit.addresses, crit.topics, index)
    ensures Outcome(chain, crit, index, lookup) == Answered(chain, crit, lookup) <==> Answerable(chain, crit, index)
    ensures Outcome(chain, crit, index, lookup).StoreError? <==> Reports(chain, crit, index)
  {
    hide RangeOf, TxsBetween, MatchLogs, LogsOf, Thinned, IndexedAnswer, NothingCutOff, RefreshedAll, Unreadable;
    assert Outcome(chain, crit, index, lookup).StoreError? <==> Reports(chain, crit, index) by {
      ReportsIff(chain, crit, index, lookup);
    }
    var range := RangeOf(chain, crit);
    if range.Some? {
      var (lo, hi) := range.value;
      var cands := index.candidates(lo, hi + 1);
      MatchEverything(Between(chain, lo, hi));
      assert Thinned(TxsBetween(chain, lo, hi + 1 - 1), cands, crit.addresses, crit.topics);
      hide IndexSound;
      IndexedIff(TxsBetween(chain, lo, hi), cands, index.decodes, index.limit, index.failed, crit.addresses,
                 crit.topics, lookup);
    }
  }

  lemma {:induction false} ReportsIff(chain: seq<Block>, crit: Criteria, index: Index, lookup: Egtx.Lookup)
    ensures Outcome(chain, crit, index, lookup).StoreError? <==> Reports(chain, crit, index)
  {
    hide RangeOf, Between, MatchLogs, LogsOf, Usable, Entries, RefreshedAll, Unreadable;
  }

  /** A bound that is absent or negative ("latest", "pending") names no height. */
  ghost predicate Open(bound: Option<int>) {
    bound.None? || bound.value < 0
  }

  /** The answer to a query with these logs; without addresses and topics there can be too many. */
  ghost predicate Answers(r: Answer, crit: Criteria, logs: seq<Log>, lookup: Egtx.Lookup) {
    if |crit.addresses| == 0 && |crit.topics| == 0 && |logs| > 2000 then r == TooManyResults
    else r == Logs(RefreshedAll(logs, lookup))
  }

  /** A query without a block hash is about the heights from its lower to its upper bound, where a bound that
      names no height stands for the newest block. */
  lemma {:induction false} HeightsAnswered(chain: seq<Block>, crit: Criteria, index: Index, lookup: Egtx.Lookup,
                                           lo: int, hi: int)
    requires IndexSound(chain, crit.addresses, crit.topics, index) && Answerable(chain, crit, index)
    requires crit.blockHash.None?
    requires if Open(crit.from) then lo == |chain| else lo == crit.from.value
    requires if Open(crit.to) then hi == |chain| else hi == crit.to.value
    ensures Answers(Outcome(chain, crit, index, lookup), crit,
                    MatchLogs(LogsOf(TxsBetween(chain, lo, hi)), crit.addresses, crit.topics), lookup)
  {
    hide IndexSound, Answerable, Outcome, MatchLogs, LogsOf, TxsBetween, RefreshedAll;
    AnsweredIff(chain, crit, index, lookup);
  }

  /** "latest": a query whose bounds name no height answers with the matching logs of the last block. */
  lemma {:induction false} LatestAnswered(chain: seq<Block>, crit: Criteria, index: Index, lookup: Egtx.Lookup)
    requires Proper(chain) && chain != []
    requires IndexSound(chain, crit.addresses, crit.topics, index) && Answerable(chain, crit, index)
    requires crit.blockHash.None? && Open(crit.from) && Open(crit.to)
    ensures Answers(Outcome(chain, crit, index, lookup), crit,
                    MatchLogs(LogsOf(chain[|chain| - 1].txs), crit.addresses, crit.topics), lookup)
  {
    hide IndexSound, Answerable, Outcome, MatchLogs, LogsOf, RefreshedAll, Proper, Answers, TxsBetween;
    HeightsAnswered(chain, crit, index, lookup, |chain|, |chain|);
    OneHeight(chain, |chain| - 1);
  }

  /** With a block hash the query is about that block, wherever it is, and fails exactly when there is none. */
  lemma {:induction false} HashAnswered(chain: seq<Block>, crit: Criteria, index: Index, lookup: Egtx.Lookup)
    requires crit.blockHash.Some?
    ensures Outcome(chain, crit, index, lookup) == BlockNotFound
            <==> forall k :: 0 <= k < |chain| ==> chain[k].hash != crit.blockHash.value
    ensures IndexSound(chain, crit.addresses, crit.topics, index) && Answerable(chain, crit, index) ==>
              forall k :: 0 <= k < |chain| && chain[k].number == k + 1 && chain[k].hash == crit.blockHash.value
                          && OnlyHere(chain, k) ==>
                Answers(Outcome(chain, crit, index, lookup), crit,
                        MatchLogs(LogsOf(TxsBetween(chain, k + 1, k + 1)), crit.addresses, crit.topics), lookup)
  {
    hide IndexSound, Answerable, MatchLogs, LogsOf, TxsBetween, RefreshedAll, Unreadable;
    FindBlockIff(chain, crit.blockHash.value);
    if IndexSound(chain, crit.addresses, crit.topics, index) && Answerable(chain, crit, index) {
      AnsweredIff(chain, crit, index, lookup);
      hide Outcome;
      forall k | 0 <= k < |chain| && chain[k].number == k + 1 && chain[k].hash == crit.blockHash.value
                 && OnlyHere(chain, k)
        ensures Answers(Outcome(chain, crit, index, lookup), crit,
                        MatchLogs(LogsOf(TxsBetween(chain, k + 1, k + 1)), crit.addresses, crit.topics), lookup)
      {
        assert FindBlock(chain, crit.blockHash.value) == Some(chain[k]);
      }
    }
  }

  /** No other block has the hash of block k. */
  ghost predicate OnlyHere(chain: seq<Block>, k: int) {
    0 <= k < |chain| && forall j :: 0 <= j < |chain| && chain[j].hash == chain[k].hash ==> j == k
  }

  lemma {:induction false} FindBlockIff(chain: seq<Block>, hash: Hash)
    ensures FindBlock(chain, hash).None? <==> forall k :: 0 <= k < |chain| ==> chain[k].hash != hash
    ensures FindBlock(chain, hash).Some? ==>
              exists k :: 0 <= k < |chain| && chain[k].hash == hash && chain[k] == FindBlock(chain, hash).value
  {
    if chain != [] {
      var n := |chain| - 1;
      FindBlockIff(chain[..n], hash);
      if chain[n].hash != hash && FindBlock(chain, hash).Some? {
        var k :| 0 <= k < n && chain[..n][k].hash == hash && chain[..n][k] == FindBlock(chain, hash).value;
        assert chain[k] == chain[..n][k];
      }
    }
  }

  /** GetLogs: its answer is the plain filter over the chain exactly for answerable queries. */
  method GetLogs(chain: seq<Block>, crit: Criteria, index: Index, lookup: Egtx.Lookup) returns (r: Answer)
    requires Proper(chain) && SmallRange(chain, crit) && IndexSound(chain, crit.addresses, crit.topics, index)
    ensures r == Outcome(chain, crit, index, lookup)
    ensures r == Answered(chain, crit, lookup) <==> Answerable(chain, crit, index)
  {
    hide Answered, Answerable, IndexSound, Proper, IndexedAnswer, RangeAnswer, Reports;
    AnsweredIff(chain, crit, index, lookup);
    var begin, end := -1, -1;
    if crit.from.Some? {
      begin := crit.from.value;
    }
    if crit.to.Some? {
      end := crit.to.value;
    }
    if crit.blockHash.Some? {
      var block := BlockByHash(chain, crit.blockHash.value);
      if block.None? {
        return BlockNotFound;
      }
      begin, end := block.value.number, block.value.number;
    }
    if begin < 0 {
      begin := |chain|;
    }
    if end < 0 {
      end := |chain|;
    }
    assert RangeOf(chain, crit) == Some((begin, end)) && begin >= 0;
    hide RangeOf;
    r := LogsInRange(chain, crit, begin, end, index, lookup);
  }

  /** The two paths of GetLogs once the range is known. */
  method LogsInRange(chain: seq<Block>, crit: Criteria, begin: int, end: int, index: Index, lookup: Egtx.Lookup)
    returns (r: Answer)
    requires Proper(chain) && IndexSound(chain, crit.addresses, crit.topics, index)
    requires 0 <= begin < TWO_32 && 0 <= end < TWO_32 - 1
    ensures r == if crit.addresses == [] && crit.topics == [] then RangeAnswer(chain, begin, end, index.decodes, lookup)
                 else IndexedAnswer(index.candidates(begin, end + 1), index.decodes, index.limit, index.failed,
                                    crit.addresses, crit.topics, lookup)
  {
    hide Proper, IndexSound, RangeAnswer, Entries, Usable, LogsOf, MatchLogs, RefreshedAll, Uint32;
    if |crit.addresses| == 0 && |crit.topics| == 0 {
      r := GetLogsByBlockNumberRange(chain, begin, end + 1, index.decodes, lookup);
    } else {
      SmallHeight(begin);
      SmallHeight(end + 1);
      IndexedSound(chain, crit, begin, end, index);
      var entries := Entries(index.candidates(Uint32(begin), Uint32(end + 1)), index.decodes, index.limit);
      var logs, error := QueryLogs(entries, index.failed, crit.addresses, crit.topics, lookup);
      r := if error then StoreError else Logs(logs);
    }
  }

  lemma {:induction false} IndexedSound(chain: seq<Block>, crit: Criteria, begin: int, end: int, index: Index)
    requires Proper(chain) && IndexSound(chain, crit.addresses, crit.topics, index)
    ensures SoundTxs(Usable(Entries(index.candidates(begin, end + 1), index.decodes, index.limit)))
  {
    var txs, cands := TxsBetween(chain, begin, end), index.candidates(begin, end + 1);
    assert Thinned(TxsBetween(chain, begin, end + 1 - 1), cands, crit.addresses, crit.topics);
    BetweenProper(chain, begin, end);
    hide TxsBetween, Proper, Thinned, IndexSound, SoundTx;
    ThinnedWithin(txs, cands, crit.addresses, crit.topics);
    UsableBeforeCut(cands, index.decodes, index.limit);
  }

  // ---------------------------------------------------------------- a query that is silently cut short

  lemma {:induction false} ThinnedAll(txs: seq<Tx>, addresses: seq<seq<byte>>, topics: seq<seq<Hash>>)
    ensures Thinned(txs, txs, addresses, topics)
  {
    if txs != [] {
      ThinnedAll(txs[1..], addresses, topics);
    }
  }

  /** The index of a chain of one block that decodes everything and hands out at most one entry. */
  function OneEntry(txs: seq<Tx>): Index {
    Index(tx => true, (start, end) => if start <= 1 < end then txs else [], 1, false)
  }

  /** A witness: whatever two transactions in the first block have logs that match, if the index hands out one
      entry, GetLogs answers with the logs of the first transaction only and reports no error. */
  lemma {:induction false} SilentlyCutShort(b: Block, x: Tx, y: Tx, addresses: seq<seq<byte>>, topics: seq<seq<Hash>>,
                                            lookup: Egtx.Lookup)
    requires b.number == 1 && b.txs == [x, y] && ProperTx(x, 1) && ProperTx(y, 1)
    requires MatchLogs(x.logs, addresses, topics) != [] && MatchLogs(y.logs, addresses, topics) != []
    requires addresses != [] || topics != []
    ensures var crit, index := Criteria(Some(1), Some(1), None, addresses, topics), OneEntry([x, y]);
            var first, second := MatchLogs(x.logs, addresses, topics), MatchLogs(y.logs, addresses, topics);
            && Proper([b]) && SmallRange([b], crit) && IndexSound([b], addresses, topics, index)
            && Outcome([b], crit, index, lookup) == Logs(RefreshedAll(first, lookup))
            && Answered([b], crit, lookup) == Logs(RefreshedAll(first + second, lookup))
            && Outcome([b], crit, index, lookup) != Answered([b], crit, lookup)
  {
    hide ProperTx, IndexSound, Entries, Usable, MatchLogs, LogsOf, Refreshed, TxsBetween, Unreadable;
    OnlyBlock(b, 1, 1);
    WitnessIndex(b, addresses, topics);
    WitnessSeen(x, y);
    WitnessLogs(x, y);
    MatchConcat(x.logs, y.logs, addresses, topics);
    var crit := Criteria(Some(1), Some(1), None, addresses, topics);
    assert RangeOf([b], crit) == Some((1, 1));
    assert Proper([b]) by {
      assert ProperTxs(b.txs, 1);
    }
  }

  lemma {:induction false} OnlyBlock(b: Block, lo: int, hi: int)
    requires b.number == 1
    ensures TxsBetween([b], lo, hi) == if lo <= 1 <= hi then b.txs else []
  {
    assert [b][..0] == [] && TxsBetween([], lo, hi) == [];
  }

  lemma {:induction false} WitnessIndex(b: Block, addresses: seq<seq<byte>>, topics: seq<seq<Hash>>)
    requires b.number == 1
    ensures IndexSound([b], addresses, topics, OneEntry(b.txs))
  {
    hide Thinned, TxsBetween;
    forall start, end
      ensures Thinned(TxsBetween([b], start, end - 1), OneEntry(b.txs).candidates(start, end), addresses, topics)
    {
      OnlyBlock(b, start, end - 1);
      ThinnedAll(b.txs, addresses, topics);
      ThinnedAll([], addresses, topics);
    }
  }

  lemma {:induction false} WitnessSeen(x: Tx, y: Tx)
    ensures Usable(Entries([x, y], OneEntry([x, y]).decodes, 1)) == [x]
  {
    var decodes := OneEntry([x, y]).decodes;
    UsableBeforeCut([x, y], decodes, 1);
    assert [x, y][1..] == [y] && Cut([y], decodes, 0) == 0 && Cut([x, y], decodes, 1) == 1;
    assert [x, y][..1] == [x];
  }

  lemma {:induction false} WitnessLogs(x: Tx, y: Tx)
    ensures LogsOf([x]) == x.logs && LogsOf([x, y]) == x.logs + y.logs
  {
    assert [x][1..] == [] && [y][1..] == [] && LogsOf([]) == [] && [x, y][1..] == [y];
    assert LogsOf([y]) == y.logs + LogsOf([]);
  }
}
