/** What holds over every run of the virtual chain. */
module ChainTheorems {
  import opened Bytes
  import opened ChainTypes
  import opened Egtx
  import opened Scanner
  import opened Origins
  import opened Runs

  lemma {:induction false} CountOf(ids: seq<Txid>, t: Txid)
    requires NoDup(ids)
    ensures multiset(ids)[t] == if t in ids then 1 else 0
  {
    if ids != [] {
      var front, last := ids[..|ids| - 1], ids[|ids| - 1];
      CountOf(front, t);
      assert ids == front + [last];
    }
  }

  lemma {:induction false} EmptyInv(cfg: Config, derivable: Txid -> bool)
    ensures Inv(cfg, derivable, EMPTY)
  {
  }

  lemma {:induction false} CoversMore(ids: seq<Txid>, more: seq<Txid>, blocks: seq<seq<RawTx>>, derivable: Txid -> bool)
    requires Covers(ids, blocks, derivable)
    ensures Covers(ids + more, blocks, derivable)
  {
  }

  lemma {:induction false} CoversBoth(ids: seq<Txid>, a: seq<seq<RawTx>>, b: seq<seq<RawTx>>, derivable: Txid -> bool)
    requires Covers(ids, a, derivable) && Covers(ids, b, derivable)
    ensures Covers(ids, a + b, derivable)
  {
    forall k, i | 0 <= k < |a + b| && 0 <= i < |(a + b)[k]| && derivable((a + b)[k][i].txid)
      ensures (a + b)[k][i].txid in ids
    {
      if k < |a| {
        assert a[k][i].txid in ids;
      } else {
        assert b[k - |a|][i].txid in ids;
      }
    }
  }

  /** What the last stored block adds to ids and covered blocks. */
  lemma {:induction false} LastBlock(cfg: Config, derivable: Txid -> bool, before: seq<Block>, src: Source, b: Block)
    requires BlockOk(cfg, derivable, before, src, b)
    ensures var fetched := FetchedBlocks(src.cl, src.lo + 1, src.hi);
            && |fetched| == src.hi - src.lo
            && (forall t :: t in Ids(b.txs) ==> derivable(t))
            && Covers(AllIds(before) + Ids(b.txs), fetched, derivable)
  {
    hide FetchedIds, FetchedBlocks, AllIds, Ids, BlockHash, MainIds, PoolIds;
    RoundIdsGood(cfg, derivable, before, src);
    FetchedBlocksAt(src.cl, src.lo + 1, src.hi);
    FetchedCovered(src.cl, src.lo + 1, src.hi, AllIds(before) + Ids(b.txs), derivable);
  }

  /** The chain without its last block, and what that block adds. */
  lemma {:induction false} Peel(cfg: Config, derivable: Txid -> bool, store: seq<Block>, sources: seq<Source>)
    requires ChainInv(cfg, derivable, store, sources) && store != []
    ensures |sources| == |store|
    ensures var n := |store| - 1;
            var src := sources[n];
            && ChainInv(cfg, derivable, store[..n], sources[..n])
            && BlockOk(cfg, derivable, store[..n], src, store[n])
            && src.lo == Persisted(cfg, store[..n]) <= src.hi == Persisted(cfg, store)
            && (forall h :: src.lo < h <= src.hi ==> h in src.cl.blocks)
            && AllIds(store) == AllIds(store[..n]) + Ids(store[n].txs)
            && Covered(sources) == Covered(sources[..n]) + FetchedBlocks(src.cl, src.lo + 1, src.hi)
  {
    hide ChainInv, BlockOk, AllIds, Covered, Persisted, Ids, FetchedBlocks;
    ChainFront(cfg, derivable, store, sources);
    var n := |store| - 1;
    SourceOf(cfg, derivable, store[..n], sources[n], store[n]);
    LastAdds(cfg, store, sources);
  }

  lemma {:induction false} SourceOf(cfg: Config, derivable: Txid -> bool, before: seq<Block>, src: Source, b: Block)
    requires BlockOk(cfg, derivable, before, src, b)
    ensures src.lo == Persisted(cfg, before) <= src.hi == b.gasUsed
    ensures forall h :: src.lo < h <= src.hi ==> h in src.cl.blocks
  {
    hide MainIds, PoolIds, Shaped, NoDup, Ids, Persisted, BlockHash;
  }

  lemma {:induction false} LastAdds(cfg: Config, store: seq<Block>, sources: seq<Source>)
    requires |store| == |sources| > 0
    ensures var n := |store| - 1;
            var src := sources[n];
            && Persisted(cfg, store) == store[n].gasUsed
            && AllIds(store) == AllIds(store[..n]) + Ids(store[n].txs)
            && Covered(sources) == Covered(sources[..n]) + FetchedBlocks(src.cl, src.lo + 1, src.hi)
  {
    hide FetchedBlocks, Ids;
  }

  /** The covered blocks reach from genesis to the persisted scan height, none of their derivable
      transactions is missing from the store, and the store holds derivable transactions only. */
  lemma {:induction false} Coverage(cfg: Config, derivable: Txid -> bool, store: seq<Block>, sources: seq<Source>)
    requires ChainInv(cfg, derivable, store, sources)
    ensures |Covered(sources)| == Persisted(cfg, store) - cfg.genesis
    ensures Covers(AllIds(store), Covered(sources), derivable)
    ensures forall t :: t in AllIds(store) ==> derivable(t)
  {
    hide ChainInv, BlockOk, Covers, Covered, FetchedBlocks, Ids, AllIds, Persisted;
    if store == [] {
      NothingCovered(cfg, derivable, sources);
    } else {
      var n := |store| - 1;
      Peel(cfg, derivable, store, sources);
      var src, b := sources[n], store[n];
      Coverage(cfg, derivable, store[..n], sources[..n]);
      LastBlock(cfg, derivable, store[..n], src, b);
      var fetched := FetchedBlocks(src.cl, src.lo + 1, src.hi);
      CoversMore(AllIds(store[..n]), Ids(b.txs), Covered(sources[..n]), derivable);
      CoversBoth(AllIds(store), Covered(sources[..n]), fetched, derivable);
    }
  }

  lemma {:induction false} NothingCovered(cfg: Config, derivable: Txid -> bool, sources: seq<Source>)
    requires ChainInv(cfg, derivable, [], sources)
    ensures Covered(sources) == [] && AllIds([]) == [] && Persisted(cfg, []) == cfg.genesis && Covers([], [], derivable)
  {
  }

  /** The node's answers in a round name nothing twice that the round is about to store: its new derivable
      block ids are distinct, and none of them is among the mempool ids that fit. */
  ghost predicate CleanRound(cfg: Config, derivable: Txid -> bool, before: seq<Block>, src: Source) {
    && NoDup(MainIds(derivable, before, src))
    && Disjoint(MainIds(derivable, before, src), PoolIds(cfg, derivable, before, src))
  }

  ghost predicate CleanRounds(cfg: Config, derivable: Txid -> bool, store: seq<Block>, sources: seq<Source>) {
    |sources| == |store| && forall k :: 0 <= k < |store| ==> CleanRound(cfg, derivable, store[..k], sources[k])
  }

  lemma {:induction false} CleanFront(cfg: Config, derivable: Txid -> bool, store: seq<Block>, sources: seq<Source>)
    requires |sources| == |store| > 0
    ensures var n := |store| - 1;
            CleanRounds(cfg, derivable, store, sources)
            <==> (&& CleanRounds(cfg, derivable, store[..n], sources[..n])
                  && CleanRound(cfg, derivable, store[..n], sources[n]))
  {
    hide CleanRound;
    var n := |store| - 1;
    assert forall k :: 0 <= k < n ==> store[..n][..k] == store[..k];
    if CleanRounds(cfg, derivable, store[..n], sources[..n]) && CleanRound(cfg, derivable, store[..n], sources[n]) {
      forall k | 0 <= k < |store|
        ensures CleanRound(cfg, derivable, store[..k], sources[k])
      {
        if k < n {
          assert CleanRound(cfg, derivable, store[..n][..k], sources[..n][k]);
        }
      }
    }
    if CleanRounds(cfg, derivable, store, sources) {
      forall k | 0 <= k < n
        ensures CleanRound(cfg, derivable, store[..n][..k], sources[..n][k])
      {
        assert CleanRound(cfg, derivable, store[..k], sources[k]);
      }
    }
  }

  /** A new block repeats no stored id, and none of its own exactly when its round is clean. */
  lemma {:induction false} NoDupWithLast(cfg: Config, derivable: Txid -> bool, before: seq<Block>, src: Source,
                                         b: Block)
    requires BlockOk(cfg, derivable, before, src, b)
    ensures NoDup(AllIds(before) + Ids(b.txs)) <==> NoDup(AllIds(before)) && CleanRound(cfg, derivable, before, src)
  {
    hide FetchedIds, AllIds, BlockHash, MainIds, PoolIds, NoDup;
    var main, pool := MainIds(derivable, before, src), PoolIds(cfg, derivable, before, src);
    RoundIdsGood(cfg, derivable, before, src);
    NoDupIff(main, pool);
    NoDupIff(AllIds(before), main + pool);
  }

  lemma {:induction false} OnceIff(cfg: Config, derivable: Txid -> bool, store: seq<Block>, sources: seq<Source>)
    requires ChainInv(cfg, derivable, store, sources)
    ensures NoDup(AllIds(store)) <==> CleanRounds(cfg, derivable, store, sources)
  {
    if store != [] {
      var n := |store| - 1;
      ChainFront(cfg, derivable, store, sources);
      assert AllIds(store) == AllIds(store[..n]) + Ids(store[n].txs);
      hide AllIds, BlockOk, CleanRound, CleanRounds, NoDup, ChainInv;
      OnceIff(cfg, derivable, store[..n], sources[..n]);
      NoDupWithLast(cfg, derivable, store[..n], sources[n], store[n]);
      CleanFront(cfg, derivable, store, sources);
    }
  }

  /** Over every run, nothing is stored twice if and only if every round that was written was clean. */
  lemma {:induction false} StoredOnceIff(cfg: Config, derivable: Txid -> bool, events: seq<Event>)
    requires AllFair(cfg, derivable, events) && cfg.genesis >= 0
    ensures var s := Run(cfg, EMPTY, events);
            NoDup(AllIds(s.store)) <==> CleanRounds(cfg, derivable, s.store, s.sources)
  {
    EmptyInv(cfg, derivable);
    RunKeepsInv(cfg, derivable, EMPTY, events);
    var s := Run(cfg, EMPTY, events);
    OnceIff(cfg, derivable, s.store, s.sources);
  }

  /** A round is clean when the fetched blocks and the mempool hold pairwise distinct ids. */
  lemma {:induction false} DistinctIsClean(cfg: Config, derivable: Txid -> bool, before: seq<Block>, src: Source)
    requires NoDup(FetchedIds(src.cl, src.lo + 1, src.hi) + Pool(src.cl))
    ensures CleanRound(cfg, derivable, before, src)
  {
    var fetched, pool := FetchedIds(src.cl, src.lo + 1, src.hi), Pool(src.cl);
    NoDupParts(fetched, pool);
    WantedMembers(fetched, Stored(before), derivable);
    hide Wanted, FetchedIds, First, PoolWanted, BlockHash, Stored;
    var taken := TakenMembers(RoundAfter(cfg, before, src.cl), derivable,
                              cfg.maxTxs - |MainIds(derivable, before, src)|);
  }

  lemma {:induction false} IdStored(store: seq<Block>, k: nat, t: Txid)
    requires k < |store| && t in Ids(store[k].txs)
    ensures t in AllIds(store)
  {
    hide Ids;
    if k < |store| - 1 {
      IdStored(store[..|store| - 1], k, t);
    }
  }

  /** No id is in two different blocks, whether the rounds were clean or not: what a round stores was not
      stored before. */
  lemma {:induction false} NoIdInTwoBlocks(cfg: Config, derivable: Txid -> bool, store: seq<Block>,
                                           sources: seq<Source>,
                                           j: nat, k: nat, t: Txid)
    requires ChainInv(cfg, derivable, store, sources) && j < k < |store| && t in Ids(store[j].txs)
    ensures t !in Ids(store[k].txs)
  {
    assert BlockOk(cfg, derivable, store[..k], sources[k], store[k]);
    hide ChainInv, Ids, AllIds, MainIds, PoolIds, BlockHash, Shaped, FetchedIds;
    assert store[..k][j] == store[j];
    IdStored(store[..k], j, t);
    RoundIdsGood(cfg, derivable, store[..k], sources[k]);
  }

  /** Exactly-once coverage: whatever mix of rounds, crashes and restarts happened, every derivable
      transaction of the main-chain blocks between genesis and the persisted scan height is in the store, and
      no transaction is in two blocks. If the written rounds were clean, each is there exactly once. */
  lemma {:induction false} ExactlyOnce(cfg: Config, derivable: Txid -> bool, events: seq<Event>)
    requires AllFair(cfg, derivable, events) && cfg.genesis >= 0
    ensures var s := Run(cfg, EMPTY, events);
            var covered, times := Covered(s.sources), multiset(AllIds(s.store));
            && |covered| == Persisted(cfg, s.store) - cfg.genesis
            && Covers(AllIds(s.store), covered, derivable)
            && (forall t :: t in AllIds(s.store) ==> derivable(t))
            && (forall j, k, t :: 0 <= j < k < |s.store| && t in Ids(s.store[j].txs) ==> t !in Ids(s.store[k].txs))
            && (CleanRounds(cfg, derivable, s.store, s.sources) ==>
                  && (forall k, i :: 0 <= k < |covered| && 0 <= i < |covered[k]| && derivable(covered[k][i].txid) ==>
                        times[covered[k][i].txid] == 1)
                  && (forall t :: t in AllIds(s.store) ==> times[t] == 1))
  {
    EmptyInv(cfg, derivable);
    RunKeepsInv(cfg, derivable, EMPTY, events);
    var s := Run(cfg, EMPTY, events);
    hide Run, AllFair, CleanRounds, Covered, AllIds, ChainInv, Ids;
    forall j, k, t | 0 <= j < k < |s.store| && t in Ids(s.store[j].txs)
      ensures t !in Ids(s.store[k].txs)
    {
      NoIdInTwoBlocks(cfg, derivable, s.store, s.sources, j, k, t);
    }
    Coverage(cfg, derivable, s.store, s.sources);
    OnceIff(cfg, derivable, s.store, s.sources);
    if CleanRounds(cfg, derivable, s.store, s.sources) {
      forall t: Txid
        ensures multiset(AllIds(s.store))[t] == if t in AllIds(s.store) then 1 else 0
      {
        CountOf(AllIds(s.store), t);
      }
    }
  }

  // ---------------------------------------------------------------- where the covered blocks come from

  /** The node served this block for this height. */
  ghost predicate Served(cl: Client, height: int, block: seq<RawTx>) {
    height in cl.blocks && block == cl.blocks[height]
  }

  /** Resumption: a round that is written covers exactly the heights after the last persisted one, with
      the blocks the node served for them, and persists the last of them. */
  lemma {:induction false} RoundResumes(cfg: Config, derivable: Txid -> bool, s: State, e: Event)
    requires Collects(cfg, derivable, s, e) && Apply(cfg, s, e).proc.Pending?
    ensures var after := Apply(cfg, Apply(cfg, s, e), Commit);
            var was, covered := Covered(s.sources), Covered(after.sources);
            && s.store <= after.store && |after.store| == |s.store| + 1 && was <= covered
            && Persisted(cfg, s.store) <= Persisted(cfg, after.store)
            && |was| == Persisted(cfg, s.store) - cfg.genesis && |covered| == Persisted(cfg, after.store) - cfg.genesis
            && (forall j :: |was| <= j < |covered| ==> Served(e.cl, cfg.genesis + 1 + j, covered[j]))
  {
    hide Inv, Persisted, Served, Covered, Covers, AllIds, FetchedBlocks, Apply, CollectedBy, Fair;
    var pending := Apply(cfg, s, e);
    var src := pending.proc.source;
    CollectKeeps(cfg, s, e);
    PendingAfter(cfg, derivable, s, e);
    ChainOf(cfg, derivable, s, e);
    Coverage(cfg, derivable, s.store, s.sources);
    CommitResult(cfg, pending);
    FetchedServed(src.cl, src.lo + 1, src.hi);
    Appended(Covered(s.sources), FetchedBlocks(src.cl, src.lo + 1, src.hi), e.cl, cfg.genesis + 1);
  }

  lemma {:induction false} CollectKeeps(cfg: Config, s: State, e: Event)
    requires e.Collect?
    ensures Apply(cfg, s, e).store == s.store && Apply(cfg, s, e).sources == s.sources
  {
    hide Collecting;
  }

  lemma {:induction false} ChainOf(cfg: Config, derivable: Txid -> bool, s: State, e: Event)
    requires Collects(cfg, derivable, s, e)
    ensures ChainInv(cfg, derivable, s.store, s.sources)
  {
    hide ChainInv, GetNewTxs;
  }

  lemma {:induction false} CommitResult(cfg: Config, s: State)
    requires s.proc.Pending?
    ensures var after, src := Apply(cfg, s, Commit), s.proc.source;
            && s.store <= after.store && |after.store| == |s.store| + 1 && Persisted(cfg, after.store) == s.proc.m.scan
            && Covered(after.sources) == Covered(s.sources) + FetchedBlocks(src.cl, src.lo + 1, src.hi)
  {
    var after := Apply(cfg, s, Commit);
    assert after.sources[..|after.sources| - 1] == s.sources;
    hide FetchedBlocks;
  }

  lemma {:induction false} Appended(covered: seq<seq<RawTx>>, fetched: seq<seq<RawTx>>, cl: Client, first: int)
    requires forall i :: 0 <= i < |fetched| ==> Served(cl, first + |covered| + i, fetched[i])
    ensures forall j :: |covered| <= j < |covered + fetched| ==> Served(cl, first + j, (covered + fetched)[j])
  {
    forall j | |covered| <= j < |covered + fetched|
      ensures Served(cl, first + j, (covered + fetched)[j])
    {
      assert Served(cl, first + |covered| + (j - |covered|), fetched[j - |covered|]);
    }
  }

  lemma {:induction false} PendingAfter(cfg: Config, derivable: Txid -> bool, s: State, e: Event)
    requires Collects(cfg, derivable, s, e) && Apply(cfg, s, e).proc.Pending?
    ensures var p := Apply(cfg, s, e).proc;
            && p.source.cl == e.cl && p.source.lo == Persisted(cfg, s.store) <= p.source.hi == p.m.scan
            && (forall h :: p.source.lo < h <= p.source.hi ==> h in e.cl.blocks)
  {
    hide Collects, Inv, Apply, CollectedBy, RoundOf, GoodRound, BlockHash, Persisted, Ids, MainIds, PoolIds, Shaped;
    GoodHere(cfg, derivable, s, e);
    CollectForm(cfg, derivable, s, e);
    CollectResult(cfg, s, e);
  }

  lemma {:induction false} FetchedServed(cl: Client, lo: int, hi: int)
    requires lo <= hi + 1 && forall k :: lo <= k <= hi ==> k in cl.blocks
    ensures |FetchedBlocks(cl, lo, hi)| == hi - lo + 1
    ensures forall i :: 0 <= i < |FetchedBlocks(cl, lo, hi)| ==> Served(cl, lo + i, FetchedBlocks(cl, lo, hi)[i])
  {
    FetchedBlocksAt(cl, lo, hi);
  }

  /** Some round of the run asked this node at this time. */
  ghost predicate Asked(events: seq<Event>, src: Source) {
    exists i :: 0 <= i < |events| && events[i].Collect? && events[i].cl == src.cl && events[i].now == src.now
  }

  ghost predicate AllAsked(events: seq<Event>, s: State) {
    && (forall k :: 0 <= k < |s.sources| ==> Asked(events, s.sources[k]))
    && (s.proc.Pending? ==> Asked(events, s.proc.source))
  }

  lemma {:induction false} AskedMore(events: seq<Event>, e: Event, src: Source)
    requires Asked(events, src) || (e.Collect? && e.cl == src.cl && e.now == src.now)
    ensures Asked(events + [e], src)
  {
    if Asked(events, src) {
      var i :| 0 <= i < |events| && events[i].Collect? && events[i].cl == src.cl && events[i].now == src.now;
      assert (events + [e])[i] == events[i];
    } else {
      assert (events + [e])[|events|] == e;
    }
  }

  lemma {:induction false} SourcesAsked(cfg: Config, events: seq<Event>)
    ensures AllAsked(events, Run(cfg, EMPTY, events))
  {
    if events != [] {
      var front, e := events[..|events| - 1], events[|events| - 1];
      SourcesAsked(cfg, front);
      var s := Run(cfg, EMPTY, front);
      assert events == front + [e];
      SourceStep(cfg, s, e);
      var s' := Apply(cfg, s, e);
      hide Run, Apply, Asked;
      forall k | 0 <= k < |s'.sources|
        ensures Asked(events, s'.sources[k])
      {
        AskedMore(front, e, s'.sources[k]);
      }
      if s'.proc.Pending? {
        AskedMore(front, e, s'.proc.source);
      }
    }
  }

  /** A step takes its sources from the state before it or from its own node. */
  lemma {:induction false} SourceStep(cfg: Config, s: State, e: Event)
    ensures var s' := Apply(cfg, s, e);
            && (forall k :: 0 <= k < |s'.sources| ==>
                  s'.sources[k] in s.sources || (s.proc.Pending? && s'.sources[k] == s.proc.source))
            && (s'.proc.Pending? ==>
                  s'.proc == s.proc || (e.Collect? && s'.proc.source.cl == e.cl && s'.proc.source.now == e.now))
  {
    hide GetNewTxs, BlockHash, Stored;
  }

  lemma {:induction false} ServedBySource(cfg: Config, derivable: Txid -> bool, store: seq<Block>,
                                          sources: seq<Source>, j: nat)
    returns (k: nat)
    requires ChainInv(cfg, derivable, store, sources) && j < |Covered(sources)|
    ensures k < |sources| && Served(sources[k].cl, cfg.genesis + 1 + j, Covered(sources)[j])
  {
    hide ChainInv, Covers, AllIds, Ids, BlockOk, Served, Covered, FetchedBlocks, Persisted;
    if store == [] {
      NothingCovered(cfg, derivable, sources);
    }
    var n := |store| - 1;
    Peel(cfg, derivable, store, sources);
    var src := sources[n];
    Coverage(cfg, derivable, store[..n], sources[..n]);
    var front := Covered(sources[..n]);
    if j < |front| {
      k := ServedBySource(cfg, derivable, store[..n], sources[..n], j);
    } else {
      k := n;
      FetchedServed(src.cl, src.lo + 1, src.hi);
      var fetched := FetchedBlocks(src.cl, src.lo + 1, src.hi);
      assert Covered(sources)[j] == fetched[j - |front|];
      assert Served(src.cl, src.lo + 1 + (j - |front|), fetched[j - |front|]);
    }
  }

  /** Every covered block was served, for its height, by the node of some round of the run. */
  lemma {:induction false} CoveredServed(cfg: Config, derivable: Txid -> bool, events: seq<Event>, j: nat)
    requires AllFair(cfg, derivable, events) && cfg.genesis >= 0 && j < |Covered(Run(cfg, EMPTY, events).sources)|
    ensures exists i :: 0 <= i < |events| && events[i].Collect?
                        && Served(events[i].cl, cfg.genesis + 1 + j, Covered(Run(cfg, EMPTY, events).sources)[j])
  {
    EmptyInv(cfg, derivable);
    RunKeepsInv(cfg, derivable, EMPTY, events);
    SourcesAsked(cfg, events);
    var s := Run(cfg, EMPTY, events);
    hide Run, Served, Covered;
    var k := ServedBySource(cfg, derivable, s.store, s.sources, j);
    assert Asked(events, s.sources[k]);
  }

  lemma {:induction false} RunGrows(cfg: Config, s: State, events: seq<Event>)
    ensures s.store <= Run(cfg, s, events).store && s.sources <= Run(cfg, s, events).sources
  {
    if events != [] {
      RunGrows(cfg, s, events[..|events| - 1]);
      hide Collecting;
    }
  }

  /** The persisted scan height never decreases and stored blocks never change. */
  lemma {:induction false} ScanNeverGoesBack(cfg: Config, derivable: Txid -> bool, s: State, events: seq<Event>)
    requires Inv(cfg, derivable, s) && AllFair(cfg, derivable, events) && cfg.genesis >= 0
    ensures var s' := Run(cfg, s, events);
            s.store <= s'.store && Persisted(cfg, s.store) <= Persisted(cfg, s'.store)
  {
    RunGrows(cfg, s, events);
    RunKeepsInv(cfg, derivable, s, events);
    var s' := Run(cfg, s, events);
    hide Run, BlockOk;
    PersistedGrows(cfg, derivable, s'.store, s'.sources, |s.store|);
    assert s'.store[..|s.store|] == s.store;
  }

  lemma {:induction false} PersistedGrows(cfg: Config, derivable: Txid -> bool, store: seq<Block>,
                                          sources: seq<Source>, n: nat)
    requires ChainInv(cfg, derivable, store, sources) && n <= |store|
    ensures Persisted(cfg, store[..n]) <= Persisted(cfg, store)
  {
    if n == |store| {
      assert store[..n] == store;
    } else {
      var last := |store| - 1;
      ChainFront(cfg, derivable, store, sources);
      hide ChainInv, BlockHash, Ids, Shaped, MainIds, PoolIds;
      PersistedGrows(cfg, derivable, store[..last], sources[..last], n);
      assert store[..last][..n] == store[..n];
    }
  }

  /** Chain shape: blocks are numbered 1..n, have pairwise distinct hashes made from the number before, and
      hold exactly the new main-chain ids of their round followed by its mempool ids; every transaction and
      log carries number and hash of its own block, the position min(p, number of main-chain ids), and what its
      raw transaction derives to. Block k + 1 is hashed from the text "name:k". */
  lemma {:induction false} ChainShape(cfg: Config, derivable: Txid -> bool, events: seq<Event>)
    requires AllFair(cfg, derivable, events) && cfg.genesis >= 0 && IdealHash(cfg)
    ensures var store, sources := Run(cfg, EMPTY, events).store, Run(cfg, EMPTY, events).sources;
            && ChainInv(cfg, derivable, store, sources)
            && (forall k :: 0 <= k < |store| ==> HashesHeight(cfg, store[k].hash, k) && Asked(events, sources[k]))
            && (forall j, k :: 0 <= j < k < |store| ==> store[j].hash != store[k].hash)
  {
    EmptyInv(cfg, derivable);
    RunKeepsInv(cfg, derivable, EMPTY, events);
    var store, sources := Run(cfg, EMPTY, events).store, Run(cfg, EMPTY, events).sources;
    SourcesAsked(cfg, events);
    hide BlockHash, Made, AllIds, Run, HashesHeight, Asked;
    forall k | 0 <= k < |store|
      ensures HashesHeight(cfg, store[k].hash, k)
    {
      assert BlockOk(cfg, derivable, store[..k], sources[k], store[k]);
      BlockHashText(cfg, k);
    }
    forall j, k | 0 <= j < k < |store|
      ensures store[j].hash != store[k].hash
    {
      assert BlockOk(cfg, derivable, store[..j], sources[j], store[j]);
      assert BlockOk(cfg, derivable, store[..k], sources[k], store[k]);
      if store[j].hash == store[k].hash {
        BlockHashInjective(cfg, j, k);
      }
    }
  }

  /** The parent hash of a new block is the tip hash at the last recovery, so it names the block before
      exactly when nothing was written since then. */
  lemma {:induction false} ParentOfSession(cfg: Config, derivable: Txid -> bool, events: seq<Event>)
    requires AllFair(cfg, derivable, events) && cfg.genesis >= 0 && IdealHash(cfg)
    requires Run(cfg, EMPTY, events).proc.Pending?
    ensures var s := Run(cfg, EMPTY, events);
            var b, since := NewBlock(s.proc), s.proc.m.since;
            && since <= |s.store| && b.parentHash == TipHash(s.store[..since])
            && (b.parentHash == TipHash(s.store) <==> since == |s.store|)
  {
    EmptyInv(cfg, derivable);
    RunKeepsInv(cfg, derivable, EMPTY, events);
    var s := Run(cfg, EMPTY, events);
    var since := s.proc.m.since;
    hide Run, AllFair, IdealHash, BlockHash, Made, AllIds;
    if since < |s.store| {
      TipsDiffer(cfg, derivable, s.store, s.sources, since);
    }
    assert s.store[..|s.store|] == s.store;
  }

  lemma {:induction false} TipsDiffer(cfg: Config, derivable: Txid -> bool, store: seq<Block>, sources: seq<Source>,
                                      n: nat)
    requires ChainInv(cfg, derivable, store, sources) && n < |store| && IdealHash(cfg)
    ensures TipHash(store[..n]) != TipHash(store)
  {
    hide ChainInv, IdealHash, BlockHash;
    var last := |store| - 1;
    HashAt(cfg, derivable, store, sources, last);
    if n > 0 {
      HashAt(cfg, derivable, store, sources, n - 1);
      if TipHash(store[..n]) == TipHash(store) {
        BlockHashInjective(cfg, n - 1, last);
      }
    }
  }

  lemma {:induction false} HashAt(cfg: Config, derivable: Txid -> bool, store: seq<Block>, sources: seq<Source>, k: nat)
    requires ChainInv(cfg, derivable, store, sources) && k < |store|
    ensures store[k].hash == BlockHash(cfg, k) && (IdealHash(cfg) ==> store[k].hash != ZERO_HASH)
  {
    assert BlockOk(cfg, derivable, store[..k], sources[k], store[k]);
    hide ChainInv, Made;
  }

  /** A restart keeps the process's place: recovery gives back the block height and hash the process had,
      and its scan height exactly when that height is not 0, genesis is 0, or nothing was stored. */
  lemma {:induction false} RecoveryResumes(cfg: Config, derivable: Txid -> bool, s: State, now: int)
    requires Inv(cfg, derivable, s) && s.proc.Idle?
    ensures var m, after := s.proc.m, Apply(cfg, Apply(cfg, s, Crash), Recover(now)).proc;
            && after.Idle? && after.m.height == m.height && after.m.hash == m.hash && after.m.known == {}
            && after.m.prev == m.hash && after.m.timestamp == (if s.store == [] then now else 0)
            && (after.m.scan == m.scan <==> m.scan != 0 || cfg.genesis == 0 || s.store == [])
            && (cfg.genesis >= 0 ==> after.m.scan == m.scan)
  {
    hide ChainInv, BlockHash, AllIds, CacheOk;
    PersistedBound(cfg, derivable, s.store, s.sources);
    if s.store != [] {
      TipOf(cfg, derivable, s.store, s.sources);
    }
  }

  /** A completed round leads to a block exactly when it scanned or found something. */
  lemma {:induction false} WritesIff(cfg: Config, derivable: Txid -> bool, s: State, e: Event)
    requires Collects(cfg, derivable, s, e)
    ensures var after := Apply(cfg, s, e).proc;
            var src := Source(e.cl, s.proc.m.scan, CollectedBy(cfg, s, e).scan, e.now);
            && (after.Pending? <==>
                  e.scanBlock || MainIds(derivable, s.store, src) + PoolIds(cfg, derivable, s.store, src) != [])
            && (!after.Pending? ==> after.Idle?)
  {
    hide Inv, Fair, Apply, GetNewTxs, MainIds, PoolIds, Shaped, Traced, BlockHash, RoundOf, Persisted, Pool;
    CollectForm(cfg, derivable, s, e);
    CollectResult(cfg, s, e);
    var c := CollectedBy(cfg, s, e);
    assert |Ids(c.txs)| == |c.txs|;
  }

  /** What every stored transaction carries: it is the derivation of a raw transaction with its id that some round of
      the run got from its node, in a block it scanned or for an id of the mempool. */
  lemma {:induction false} StoredIsDerived(cfg: Config, derivable: Txid -> bool, events: seq<Event>, k: nat, p: nat)
    returns (i: nat)
    requires AllFair(cfg, derivable, events) && cfg.genesis >= 0
    requires k < |Run(cfg, EMPTY, events).store| && p < |Run(cfg, EMPTY, events).store[k].txs|
    ensures i < |events| && events[i].Collect?
    ensures var s := Run(cfg, EMPTY, events);
            var b, e := s.store[k], events[i];
            && b.size == e.now
            && (|| FromBlocks(cfg, e.cl, Persisted(cfg, s.store[..k]) + 1, b.gasUsed, b.txs[p])
                || FromPool(cfg, e.cl, b.txs[p]))
  {
    hide Run, AllFair, FromBlocks, FromPool, Persisted, ChainInv, ProcessInv;
    EmptyInv(cfg, derivable);
    RunKeepsInv(cfg, derivable, EMPTY, events);
    SourcesAsked(cfg, events);
    var s := Run(cfg, EMPTY, events);
    BlockTraced(cfg, derivable, s.store, s.sources, k, p);
    assert Asked(events, s.sources[k]);
    i :| && 0 <= i < |events| && events[i].Collect?
         && events[i].cl == s.sources[k].cl && events[i].now == s.sources[k].now;
  }

  lemma {:induction false} BlockTraced(cfg: Config, derivable: Txid -> bool, store: seq<Block>, sources: seq<Source>,
                                       k: nat, p: nat)
    requires ChainInv(cfg, derivable, store, sources) && k < |store| && p < |store[k].txs|
    ensures |sources| == |store|
    ensures var b, src := store[k], sources[k];
            && b.size == src.now
            && (|| FromBlocks(cfg, src.cl, Persisted(cfg, store[..k]) + 1, b.gasUsed, b.txs[p])
                || FromPool(cfg, src.cl, b.txs[p]))
  {
    assert BlockOk(cfg, derivable, store[..k], sources[k], store[k]);
    hide ChainInv, MainIds, PoolIds, Shaped, Ids, BlockHash, FromBlocks, FromPool, Persisted, NoDup;
  }

  /** A transaction that a round sees both in a fetched block and in the mempool is stored twice: nothing
      compares the two within a round. */
  lemma {:induction false} SeenTwiceStoredTwice(cfg: Config, tx: RawTx, lookup: Lookup, evict: Evictor)
    requires cfg.maxTxs >= 2 && tx.txid in lookup && lookup[tx.txid] == tx && cfg.derive(tx, lookup).Derived?
    ensures var cl := Client(Some(cfg.genesis + 1), map[cfg.genesis + 1 := [tx]], Some([tx.txid]), lookup);
            multiset(AllIds(Run(cfg, EMPTY, [Recover(0), Collect(cl, true, evict, 0), Commit]).store))[tx.txid] == 2
  {
    var cl := Client(Some(cfg.genesis + 1), map[cfg.genesis + 1 := [tx]], Some([tx.txid]), lookup);
    var recovered := Apply(cfg, EMPTY, Recover(0));
    TwiceCollected(cfg, tx, evict, recovered.proc.m, cl);
    RunThree(cfg, EMPTY, Recover(0), Collect(cl, true, evict, 0), Commit);
    hide GetNewTxs, Run, RoundOf;
    OneBlockIds(NewBlock(Apply(cfg, recovered, Collect(cl, true, evict, 0)).proc));
  }

  lemma {:induction false} RunThree(cfg: Config, s: State, a: Event, b: Event, c: Event)
    ensures Run(cfg, s, [a, b, c]) == Apply(cfg, Apply(cfg, Apply(cfg, s, a), b), c)
  {
    hide Apply;
    assert [a, b, c][..2] == [a, b] && [a, b][..1] == [a] && [a][..0] == [];
    assert Run(cfg, s, [a]) == Apply(cfg, s, a);
    assert Run(cfg, s, [a, b]) == Apply(cfg, Apply(cfg, s, a), b);
  }

  lemma {:induction false} OneBlockIds(b: Block)
    ensures AllIds([] + [b]) == Ids(b.txs)
  {
    assert ([] + [b])[..0] == [] && AllIds([]) == [];
  }

  lemma {:induction false} TwiceCollected(cfg: Config, tx: RawTx, evict: Evictor, m: Memory, cl: Client)
    requires cfg.maxTxs >= 2 && m.known == {}
    requires cl == Client(Some(m.scan + 1), map[m.scan + 1 := [tx]], Some([tx.txid]), cl.lookup)
    requires tx.txid in cl.lookup && cl.lookup[tx.txid] == tx && cfg.derive(tx, cl.lookup).Derived?
    ensures var c := GetNewTxs(RoundOf(cfg, [], m, cl), m.scan, {}, true, evict);
            c.Collected? && Ids(c.txs) == [tx.txid, tx.txid]
  {
    var r, h := RoundOf(cfg, [], m, cl), m.scan + 1;
    var d := cfg.derive(tx, cl.lookup).d;
    var first := [MakeTx(tx.txid, d, 0, r.number, r.hash)];
    assert [tx][1..] == [];
    assert CollectBlock(r, {}, [], first) == Some(first);
    assert [] + first == first;
    assert CollectBlock(r, {}, [tx], []) == Some(first);
    assert CollectBlocks(r, {}, h + 1, h, first) == Some(Main(first, h));
    assert CollectBlocks(r, {}, h, h, []) == Some(Main(first, h));
    var second := first + [MakeTx(tx.txid, d, 1, r.number, r.hash)];
    var known := AddKnown({}, tx.txid, evict, 0);
    assert CollectMempool(r, [tx.txid], known, evict, 1, second, 1) == Some(Pooled(second, known));
    assert CollectMempool(r, [tx.txid], {}, evict, 0, first, 1) == Some(Pooled(second, known));
  }
}
