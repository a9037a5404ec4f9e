/** From the virtual chain to a client: what a log filter is given for the blocks published since it was
    installed is what a query for those blocks returns (chains/adapter.go, rpc/api/filters, api/backend.go). */
module EndToEnd {
  import opened Bytes
  import opened ChainTypes
  import opened Filters
  import opened Confirmations
  import opened Queries
  import opened PushPull
  import Egtx
  import E = EventSystem
  import T = EventTheorems
  import A = Adapter
  import Runs
  import Scanner

  // ---------------------------------------------------------------- events a subscription has seen

  /** The events the loop has taken up in this run, in order. */
  function Arrived(steps: seq<E.Step>): seq<E.Event> {
    if steps == [] then []
    else
      var front, last := steps[..|steps| - 1], steps[|steps| - 1];
      Arrived(front) + TakenUp(E.Run(E.INIT, front), last)
  }

  function TakenUp(s: E.State, st: E.Step): seq<E.Event> {
    if st.Arrive? && E.Enabled(s, st) then [st.event] else []
  }

  predicate Suffix<T(==)>(part: seq<T>, all: seq<T>) {
    |part| <= |all| && part == all[|all| - |part|..]
  }

  ghost predicate HandledOk(s: E.State, arrived: seq<E.Event>) {
    forall id :: id in s.subs ==>
      && (s.subs[id].creator.Sending? ==> s.subs[id].handled == [])
      && (id in s.index ==> Suffix(s.subs[id].handled, arrived))
  }

  lemma {:induction false} HandledStep(s: E.State, st: E.Step, arrived: seq<E.Event>)
    requires E.Inv(s) && HandledOk(s, arrived)
    ensures HandledOk(E.Apply(s, st), arrived + TakenUp(s, st))
  {
    hide E.Matched, E.Inv;
    if st.Arrive? && E.Enabled(s, st) {
      HandledArrive(s, st, arrived);
    } else {
      assert arrived + TakenUp(s, st) == arrived;
    }
  }

  lemma {:induction false} HandledArrive(s: E.State, st: E.Step, arrived: seq<E.Event>)
    requires E.Inv(s) && HandledOk(s, arrived) && st.Arrive? && E.Enabled(s, st)
    ensures HandledOk(E.Apply(s, st), arrived + [st.event])
  {
    var s' := E.Apply(s, st);
    forall id | id in s'.subs
      ensures s'.subs[id].creator.Sending? ==> s'.subs[id].handled == []
      ensures id in s'.index ==> Suffix(s'.subs[id].handled, arrived + [st.event])
    {
      assert E.SubInvIn(s, id);
      if id in s.index {
        SuffixGrows(s.subs[id].handled, arrived, st.event);
      }
    }
  }

  lemma {:induction false} SuffixGrows<T>(part: seq<T>, all: seq<T>, x: T)
    requires Suffix(part, all)
    ensures Suffix(part + [x], all + [x])
  {
    assert (all + [x])[|all| - |part|..] == all[|all| - |part|..] + [x];
  }

  /** A subscription has been shown every event the loop has taken up since it was installed. */
  lemma {:induction false} HandledIsSuffix(steps: seq<E.Step>)
    ensures HandledOk(E.Run(E.INIT, steps), Arrived(steps))
  {
    hide E.Apply, TakenUp;
    if steps != [] {
      var front := steps[..|steps| - 1];
      HandledIsSuffix(front);
      T.InitInv();
      E.RunKeepsInv(E.INIT, front);
      hide E.Inv;
      HandledStep(E.Run(E.INIT, front), steps[|steps| - 1], Arrived(front));
    }
  }

  // ---------------------------------------------------------------- batches of logs

  /** The log batches among these events. */
  function Batches(events: seq<E.Event>): seq<seq<Log>> {
    if events == [] then []
    else
      var e := events[|events| - 1];
      Batches(events[..|events| - 1]) + (if e.LogsEvent? then [e.logs] else [])
  }

  ghost predicate NoneRemoved(events: seq<E.Event>) {
    forall i :: 0 <= i < |events| ==> !events[i].RemovedLogsEvent?
  }

  lemma {:induction false} BatchesOfBoth(a: seq<E.Event>, b: seq<E.Event>)
    ensures Batches(a + b) == Batches(a) + Batches(b)
  {
    if b == [] {
      assert a + b == a;
    } else {
      var front, e := b[..|b| - 1], b[|b| - 1];
      BatchesOfBoth(a, front);
      assert (a + b)[..|a + b| - 1] == a + front && (a + b)[|a + b| - 1] == e;
      Associative(Batches(a), Batches(front), if e.LogsEvent? then [e.logs] else []);
    }
  }

  function Flat(batches: seq<seq<Log>>): seq<Log> {
    if batches == [] then [] else Flat(batches[..|batches| - 1]) + batches[|batches| - 1]
  }

  lemma {:induction false} FlatConcat(a: seq<seq<Log>>, b: seq<seq<Log>>)
    ensures Flat(a + b) == Flat(a) + Flat(b)
  {
    if b == [] {
      assert a + b == a;
    } else {
      var front, last := b[..|b| - 1], b[|b| - 1];
      FlatConcat(a, front);
      assert (a + b)[..|a + b| - 1] == a + front && (a + b)[|a + b| - 1] == last;
      Associative(Flat(a), Flat(front), last);
    }
  }

  lemma {:induction false} FlatOne(logs: seq<Log>)
    ensures Flat([]) == [] && Flat([logs]) == logs
  {
    assert [logs][..0] == [];
    assert [] + logs == logs;
  }

  lemma {:induction false} LogsAreBatches(events: seq<E.Event>)
    requires NoneRemoved(events)
    ensures T.LogsIn(events) == Flat(Batches(events))
  {
    if events != [] {
      var front, e := events[..|events| - 1], events[|events| - 1];
      LogsAreBatches(front);
      if e.LogsEvent? {
        FlatConcat(Batches(front), [e.logs]);
        FlatOne(e.logs);
      } else {
        assert e.ChainEvent?;
        assert Batches(events) == Batches(front) && T.LogsIn(events) == T.LogsIn(front);
      }
    }
  }

  lemma {:induction false} HandledBatches(part: seq<E.Event>, all: seq<E.Event>) returns (i: nat)
    requires Suffix(part, all) && NoneRemoved(all)
    ensures NoneRemoved(part) && i <= |Batches(all)| && Batches(part) == Batches(all)[i..]
  {
    var before := all[..|all| - |part|];
    assert all == before + part;
    BatchesOfBoth(before, part);
    i := |Batches(before)|;
    assert forall k :: 0 <= k < |part| ==> part[k] == all[|all| - |part| + k];
  }

  // ---------------------------------------------------------------- batches and blocks

  function FirstBatch(b: Block): seq<seq<Log>> {
    if LogsOf(b.txs) == [] then [] else [LogsOf(b.txs)]
  }

  lemma {:induction false} HeadBatch(b: Block, rest: seq<Block>)
    ensures LogBatches([b] + rest) == FirstBatch(b) + LogBatches(rest)
  {
    assert ([b] + rest)[1..] == rest;
    hide LogsOf;
  }

  /** The first batches of some blocks are the batches of the first blocks. */
  lemma {:induction false} PrefixBatches(blocks: seq<Block>, j: nat) returns (m: nat)
    requires j <= |LogBatches(blocks)|
    ensures m <= |blocks| && LogBatches(blocks)[..j] == LogBatches(blocks[..m])
  {
    if j == 0 {
      m := 0;
    } else {
      var b, rest := blocks[0], blocks[1..];
      assert blocks == [b] + rest;
      HeadBatch(b, rest);
      hide LogBatches;
      var head := FirstBatch(b);
      var k := PrefixBatches(rest, j - |head|);
      m := k + 1;
      HeadBatch(b, rest[..k]);
      assert blocks[..m] == [b] + rest[..k];
      assert (head + LogBatches(rest))[..j] == head + LogBatches(rest)[..j - |head|];
    }
  }

  lemma {:induction false} SuffixBatches(blocks: seq<Block>, i: nat) returns (n: nat)
    requires i <= |LogBatches(blocks)|
    ensures n <= |blocks| && LogBatches(blocks)[i..] == LogBatches(blocks[n..])
  {
    if i == 0 {
      n := 0;
      assert blocks[0..] == blocks;
    } else {
      var b, rest := blocks[0], blocks[1..];
      assert blocks == [b] + rest;
      HeadBatch(b, rest);
      hide LogBatches;
      var head := FirstBatch(b);
      var k := SuffixBatches(rest, i - |head|);
      n := k + 1;
      assert blocks[n..] == rest[k..];
      assert (head + LogBatches(rest))[i..] == LogBatches(rest)[i - |head|..];
    }
  }

  /** The logs of the blocks numbered n + 1 to m are the batches of these blocks. */
  lemma {:induction false} BetweenIsFlat(chain: seq<Block>, n: nat, m: nat)
    requires Proper(chain) && n <= m <= |chain|
    ensures Between(chain, n + 1, m) == Flat(LogBatches(chain[n..m]))
    decreases m
  {
    hide Proper, TxsBetween, LogBatches, Flat;
    if n == m {
      NoneBetween(chain, n + 1, n);
      assert chain[n..m] == [];
      NoBatches();
    } else {
      var b := chain[m - 1];
      BetweenIsFlat(chain, n, m - 1);
      OneMoreHeight(chain, n + 1, m - 1);
      LogsOfConcat(TxsBetween(chain, n + 1, m - 1), b.txs);
      assert chain[n..m] == chain[n..m - 1] + [b];
      BatchesConcat(chain[n..m - 1], [b]);
      FlatConcat(LogBatches(chain[n..m - 1]), LogBatches([b]));
      FlatOfBlock(b);
    }
  }

  lemma {:induction false} NoBatches()
    ensures Flat(LogBatches([])) == []
  {
  }

  lemma {:induction false} FlatOfBlock(b: Block)
    ensures Flat(LogBatches([b])) == LogsOf(b.txs)
  {
    hide LogsOf;
    assert [b][1..] == [] && LogBatches([]) == [];
    FlatOne(LogsOf(b.txs));
  }

  // ---------------------------------------------------------------- bounds of a filter as a height range

  function RaisedTo(from: Option<int>, lo: int): int {
    if from.Some? && from.value > lo then from.value else lo
  }

  function LoweredTo(to: Option<int>, hi: int): int {
    if to.Some? && 0 <= to.value < hi then to.value else hi
  }

  /** Logs of one block are within the bounds together or not at all. */
  lemma {:induction false} BoundedBlock(logs: seq<Log>, number: int, from: Option<int>, to: Option<int>)
    requires forall i :: 0 <= i < |logs| ==> logs[i].blockNumber == number
    ensures Bounded(logs, from, to) == if InBounds(number, from, to) then logs else []
  {
    if InBounds(number, from, to) {
      AllInBounds(logs, from, to);
    } else if logs != [] {
      BoundedBlock(logs[..|logs| - 1], number, from, to);
    }
  }

  /** Bounding the logs of a height range is narrowing the range. */
  lemma {:induction false} BoundedBetween(chain: seq<Block>, lo: nat, hi: int, from: Option<int>, to: Option<int>)
    requires Proper(chain)
    ensures Bounded(Between(chain, lo, hi), from, to) == Between(chain, RaisedTo(from, lo), LoweredTo(to, hi))
  {
    hide Proper, ProperTxs, Between, Bounded, LogsOf;
    if chain == [] {
      NothingBounded(lo, hi, from, to);
    } else {
      var n := |chain| - 1;
      var front, b := chain[..n], chain[n];
      FrontProper(chain);
      BoundedBetween(front, lo, hi, from, to);
      NumbersOf(b.txs, n + 1);
      BoundedBlock(LogsOf(b.txs), n + 1, from, to);
      LastBetween(chain, lo, hi);
      LastBetween(chain, RaisedTo(from, lo), LoweredTo(to, hi));
      var last := if lo <= n + 1 <= hi then LogsOf(b.txs) else [];
      BoundedConcat(Between(front, lo, hi), last, from, to);
      assert Bounded([], from, to) == [] by { NothingBounded(lo, hi, from, to); }
    }
  }

  lemma {:induction false} NothingBounded(lo: int, hi: int, from: Option<int>, to: Option<int>)
    ensures Bounded([], from, to) == [] && Between([], lo, hi) == []
    ensures Between([], RaisedTo(from, lo), LoweredTo(to, hi)) == []
  {
  }

  lemma {:induction false} FrontProper(chain: seq<Block>)
    requires Proper(chain) && chain != []
    ensures var n := |chain| - 1;
            Proper(chain[..n]) && chain[n].number == n + 1 && ProperTxs(chain[n].txs, n + 1)
  {
    hide ProperTxs;
  }

  lemma {:induction false} LastBetween(chain: seq<Block>, lo: int, hi: int)
    requires chain != []
    ensures var b := chain[|chain| - 1];
            Between(chain, lo, hi)
              == Between(chain[..|chain| - 1], lo, hi) + (if lo <= b.number <= hi then LogsOf(b.txs) else [])
  {
    var b := chain[|chain| - 1];
    LogsOfConcat(TxsBetween(chain[..|chain| - 1], lo, hi), if lo <= b.number <= hi then b.txs else []);
    assert LogsOf([]) == [];
  }

  // ---------------------------------------------------------------- end to end

  /** A filter that is installed and that nobody has unsubscribed. */
  ghost predicate Live(s: E.State, id: E.Id) {
    id in s.subs && s.subs[id].unsub.NotCalled? && !s.subs[id].creator.Sending?
  }

  ghost predicate LiveLogFilter(s: E.State, id: E.Id) {
    Live(s, id) && s.subs[id].kind.LogKind?
  }

  ghost predicate LiveBlockFilter(s: E.State, id: E.Id) {
    Live(s, id) && s.subs[id].kind.HeadKind?
  }

  /** What the filter was given, then its buffer, the batch in hand and what is still to be sent. */
  ghost function Path(s: E.State, id: E.Id): seq<E.Item>
    requires id in s.subs
  {
    var sub := s.subs[id];
    sub.delivered + E.Buffered(sub) + E.InHand(sub) + E.Unsent(s.loop, id, sub.kind)
  }

  /** The query for the blocks numbered n + 1 to m that are within the filter's bounds. */
  function QueryFor(kind: E.Kind, n: nat, m: nat): Criteria
    requires kind.LogKind?
  {
    Criteria(Some(RaisedTo(kind.from, n + 1)), Some(LoweredTo(kind.to, m)), None, kind.addresses, kind.topics)
  }

  /** The blocks whose logs the filter has handled: an unbroken stretch n + 1 .. m of what was published. */
  lemma {:induction false} HandledStretch(steps: seq<E.Step>, id: E.Id, chain: seq<Block>, since: nat)
    returns (n: nat, m: nat)
    requires Proper(chain) && since <= |chain| && LiveLogFilter(E.Run(E.INIT, steps), id)
    requires NoneRemoved(Arrived(steps)) && Batches(Arrived(steps)) <= LogBatches(chain[since..])
    ensures since <= n <= m <= |chain|
    ensures Batches(Arrived(steps)) == LogBatches(chain[since..m])
    ensures Batches(E.Run(E.INIT, steps).subs[id].handled) == LogBatches(chain[n..m])
    ensures T.LogsIn(E.Run(E.INIT, steps).subs[id].handled) == Between(chain, n + 1, m)
  {
    hide LogBatches, Batches, Proper, E.Run, Arrived, NoneRemoved;
    var s, all := E.Run(E.INIT, steps), Arrived(steps);
    Installed(steps, id);
    var handled := s.subs[id].handled;
    HandledIsSuffix(steps);
    var i := HandledBatches(handled, all);
    var published := chain[since..];
    var k := PrefixBatches(published, |Batches(all)|);
    assert LogBatches(published)[..|Batches(all)|] == Batches(all);
    var l := SuffixBatches(published[..k], i);
    n, m := since + l, since + k;
    assert published[..k] == chain[since..m] && published[..k][l..] == chain[n..m];
    LogsAreBatches(handled);
    BetweenIsFlat(chain, n, m);
  }

  lemma {:induction false} Installed(steps: seq<E.Step>, id: E.Id)
    requires Live(E.Run(E.INIT, steps), id)
    ensures id in E.Run(E.INIT, steps).index
  {
    T.InitInv();
    E.RunKeepsInv(E.INIT, steps);
    assert E.SubInvIn(E.Run(E.INIT, steps), id);
  }

  /** End to end: whatever the interleaving, as long as the loop takes the batches in the order in which the
      chain has published them since block `since`, a live filter's path is the filter over the logs of an
      unbroken stretch of blocks: n + 1 is the first published after its installation and m the last the loop
      has taken up. A query for that stretch returns the same logs with fresh confirmation words. */
  lemma {:induction false} FilterSeesChain(steps: seq<E.Step>, id: E.Id, chain: seq<Block>, since: nat,
                                           lookup: Egtx.Lookup)
    returns (n: nat, m: nat, pushed: seq<Log>)
    requires Proper(chain) && since <= |chain| && LiveLogFilter(E.Run(E.INIT, steps), id)
    requires NoneRemoved(Arrived(steps)) && Batches(Arrived(steps)) <= LogBatches(chain[since..])
    ensures since <= n <= m <= |chain| && Batches(Arrived(steps)) == LogBatches(chain[since..m])
    ensures Batches(E.Run(E.INIT, steps).subs[id].handled) == LogBatches(chain[n..m])
    ensures Path(E.Run(E.INIT, steps), id) == E.Items(pushed)
    ensures var kind := E.Run(E.INIT, steps).subs[id].kind;
            var pulled := RefreshedAll(pushed, lookup);
            && pushed == Expected(chain, RaisedTo(kind.from, n + 1), LoweredTo(kind.to, m), kind.addresses, kind.topics)
            && SameButFirstWord(pushed, pulled)
            && (Answered(chain, QueryFor(kind, n, m), lookup)
                == if kind.addresses == [] && kind.topics == [] && |pushed| > MAX_LOG_RESULTS then TooManyResults
                   else Logs(pulled))
  {
    hide E.Run, Proper, Arrived, NoneRemoved, LogBatches, Batches, Answered, RefreshedAll, SameButFirstWord, MatchLogs,
      Bounded, Between, T.LogsIn, Path;
    var kind := E.Run(E.INIT, steps).subs[id].kind;
    n, m := HandledStretch(steps, id, chain, since);
    pushed := MatchLogs(Bounded(Between(chain, n + 1, m), kind.from, kind.to), kind.addresses, kind.topics);
    PathIsFilter(steps, id);
    BoundedBetween(chain, n + 1, m, kind.from, kind.to);
    StretchAnswered(chain, kind, n, m, lookup);
    OnlyFirstWord(pushed, lookup);
  }

  lemma {:induction false} PathIsFilter(steps: seq<E.Step>, id: E.Id)
    requires LiveLogFilter(E.Run(E.INIT, steps), id)
    ensures var s := E.Run(E.INIT, steps);
            var sub := s.subs[id];
            Path(s, id) == E.Items(MatchLogs(Bounded(T.LogsIn(sub.handled), sub.kind.from, sub.kind.to),
                                             sub.kind.addresses, sub.kind.topics))
  {
    hide E.Run, MatchLogs, Bounded, T.LogsIn, E.Unsent;
    T.DeliveryConserved(steps, id);
  }

  lemma {:induction false} StretchAnswered(chain: seq<Block>, kind: E.Kind, n: nat, m: nat, lookup: Egtx.Lookup)
    requires kind.LogKind?
    ensures var logs := MatchLogs(Between(chain, RaisedTo(kind.from, n + 1), LoweredTo(kind.to, m)), kind.addresses,
                                  kind.topics);
            Answered(chain, QueryFor(kind, n, m), lookup)
            == if kind.addresses == [] && kind.topics == [] && |logs| > MAX_LOG_RESULTS then TooManyResults
               else Logs(RefreshedAll(logs, lookup))
  {
    hide MatchLogs, Between, RefreshedAll;
  }

  // ---------------------------------------------------------------- block filters

  /** The block hashes among these events. */
  function Headers(events: seq<E.Event>): seq<Hash> {
    if events == [] then []
    else
      var e := events[|events| - 1];
      Headers(events[..|events| - 1]) + (if e.ChainEvent? then [e.header] else [])
  }

  function HashItems(hashes: seq<Hash>): seq<E.Item> {
    seq(|hashes|, i requires 0 <= i < |hashes| => E.HashItem(hashes[i]))
  }

  lemma {:induction false} HeadersOfBoth(a: seq<E.Event>, b: seq<E.Event>)
    ensures Headers(a + b) == Headers(a) + Headers(b)
  {
    if b == [] {
      assert a + b == a;
    } else {
      var front, e := b[..|b| - 1], b[|b| - 1];
      HeadersOfBoth(a, front);
      assert (a + b)[..|a + b| - 1] == a + front && (a + b)[|a + b| - 1] == e;
      Associative(Headers(a), Headers(front), if e.ChainEvent? then [e.header] else []);
    }
  }

  lemma {:induction false} HeadersAreItems(events: seq<E.Event>)
    ensures T.HeadersIn(events) == HashItems(Headers(events))
  {
    if events != [] {
      HeadersAreItems(events[..|events| - 1]);
    }
  }

  /** The same for block filters: whatever the interleaving, as long as the loop takes headers in the order in
      which the chain has published them, a live block filter's path is the hashes of the blocks n + 1 .. m, from
      the first published after its installation to the last the loop has taken up. */
  lemma {:induction false} BlockFilterSeesChain(steps: seq<E.Step>, id: E.Id, chain: seq<Block>, since: nat)
    returns (n: nat, m: nat)
    requires since <= |chain| && LiveBlockFilter(E.Run(E.INIT, steps), id)
    requires Headers(Arrived(steps)) <= Hashes(chain[since..])
    ensures since <= n <= m <= |chain| && Headers(Arrived(steps)) == Hashes(chain[since..m])
    ensures Headers(E.Run(E.INIT, steps).subs[id].handled) == Hashes(chain[n..m])
    ensures Path(E.Run(E.INIT, steps), id) == HashItems(Hashes(chain[n..m]))
  {
    hide E.Run, Arrived, Headers, T.HeadersIn, E.Unsent;
    var all, handled := Arrived(steps), E.Run(E.INIT, steps).subs[id].handled;
    Installed(steps, id);
    HandledIsSuffix(steps);
    var before := all[..|all| - |handled|];
    assert all == before + handled;
    HeadersOfBoth(before, handled);
    n, m := since + |Headers(before)|, since + |Headers(all)|;
    assert Headers(all) == Hashes(chain[since..m]);
    assert Headers(handled) == Headers(all)[|Headers(before)|..] == Hashes(chain[n..m]);
    T.DeliveryConserved(steps, id);
    HeadersAreItems(handled);
  }

  // ---------------------------------------------------------------- one process

  /** One process from scanning to serving: after any history of earlier sessions, while the loop takes what this
      session's virtual chain has put on its feeds, every live filter gets exactly the blocks written since its
      installation, and log queries over the same blocks agree with it. */
  lemma {:induction false} ProcessServes(vc: A.VirtualChain, cfg: Scanner.Config, derivable: Egtx.Txid -> bool,
                                         events: seq<Runs.Event>, steps: seq<E.Step>, id: E.Id, lookup: Egtx.Lookup)
    returns (n: nat, m: nat, pushed: seq<Log>)
    requires Runs.AllFair(cfg, derivable, events) && cfg.genesis >= 0 && Runs.IdealHash(cfg)
    requires vc.Published() && vc.db.blocks == Runs.Run(cfg, Runs.EMPTY, events).store
    requires forall t :: t in Runs.AllIds(vc.db.blocks) ==> |t| == 32
    requires Live(E.Run(E.INIT, steps), id) && NoneRemoved(Arrived(steps))
    requires Batches(Arrived(steps)) <= vc.logsFeed && Headers(Arrived(steps)) <= vc.chainFeed
    ensures vc.since <= n <= m <= |vc.db.blocks|
    ensures var s := E.Run(E.INIT, steps);
            match s.subs[id].kind
            case HeadKind => Path(s, id) == HashItems(Hashes(vc.db.blocks[n..m]))
            case LogKind(from, to, addresses, topics) =>
              && pushed == Expected(vc.db.blocks, RaisedTo(from, n + 1), LoweredTo(to, m), addresses, topics)
              && Path(s, id) == E.Items(pushed) && SameButFirstWord(pushed, RefreshedAll(pushed, lookup))
              && (Answered(vc.db.blocks, QueryFor(s.subs[id].kind, n, m), lookup)
                  == if addresses == [] && topics == [] && |pushed| > MAX_LOG_RESULTS then TooManyResults
                     else Logs(RefreshedAll(pushed, lookup)))
  {
    hide E.Run, Runs.Run, Runs.AllFair, Runs.IdealHash, Runs.AllIds, Arrived, Headers, Batches, NoneRemoved, Proper,
      Path, Answered, Expected, QueryFor, RaisedTo, LoweredTo, RefreshedAll, SameButFirstWord, LogBatches, Hashes;
    pushed := [];
    RunsAreProper(cfg, derivable, events);
    if E.Run(E.INIT, steps).subs[id].kind.HeadKind? {
      n, m := BlockFilterSeesChain(steps, id, vc.db.blocks, vc.since);
    } else {
      n, m, pushed := FilterSeesChain(steps, id, vc.db.blocks, vc.since, lookup);
    }
  }
}
