/** A transaction whose derivation panics ends the process, recovery starts again at the same height, and so
    the scan can stop for good (scanner/bch.go, chains/adapter.go). */
module PanicLoop {
  import opened Bytes
  import opened ChainTypes
  import opened Egtx
  import opened Scanner
  import opened Runs
  import opened Completion
  import ChainTheorems
  import Adapter
  import TxBuilder

  /** The node serves transaction t in the block at height h, and deriving t panics wherever it comes from. */
  ghost predicate Jams(cfg: Config, cl: Client, h: int, t: Txid) {
    && h in cl.blocks
    && (exists i :: && 0 <= i < |cl.blocks[h]| && cl.blocks[h][i].txid == t
                    && cfg.derive(cl.blocks[h][i], cl.lookup) == Panic)
    && (t in cl.lookup ==> cfg.derive(cl.lookup[t], cl.lookup) == Panic)
  }

  ghost predicate AllJam(cfg: Config, events: seq<Event>, h: int, t: Txid) {
    forall i :: 0 <= i < |events| && events[i].Collect? ==> Jams(cfg, events[i].cl, h, t)
  }

  /** The store has reached the height before h, and neither it nor the process knows t. */
  ghost predicate Facing(cfg: Config, s: State, h: int, t: Txid) {
    && Persisted(cfg, s.store) == h - 1 && t !in AllIds(s.store)
    && (s.proc.Idle? ==> t !in s.proc.m.known)
    && (s.proc.Pending? ==> t !in s.proc.m.known && t !in Ids(s.proc.txs) && s.proc.m.scan == h - 1)
  }

  /** A round that starts at the jammed height panics or leaves the scan height where it is. */
  lemma {:induction false} MainJams(r: Round, known: set<Txid>, scanBlock: bool, h: int, t: Txid)
    requires Jams(r.cfg, r.cl, h, t) && t !in known && t !in r.stored
    ensures var m := CollectMain(r, h - 1, known, scanBlock);
            m.Some? ==> m.value == Main([], h - 1)
  {
    if scanBlock && r.cl.count.Some? && h - 1 < r.cl.count.value {
      var i :| 0 <= i < |r.cl.blocks[h]| && r.cl.blocks[h][i].txid == t
        && r.cfg.derive(r.cl.blocks[h][i], r.cl.lookup) == Panic;
      BlockPanics(r, known, r.cl.blocks[h], [], i);
    }
  }

  /** The mempool loop neither stores nor caches a transaction that panics. */
  lemma {:induction false} PoolJams(r: Round, pool: seq<Txid>, known: set<Txid>, evict: Evictor, i: nat, acc: seq<Tx>,
                                    main: nat, t: Txid)
    requires i <= |pool| && t !in known && t !in r.stored && t !in Ids(acc)
    requires forall x :: x in r.cl.lookup ==> r.cl.lookup[x].txid == x
    requires t in r.cl.lookup ==> r.cfg.derive(r.cl.lookup[t], r.cl.lookup) == Panic
    ensures var out := CollectMempool(r, pool, known, evict, i, acc, main);
            out.Some? ==> t !in out.value.known && t !in Ids(out.value.txs)
    decreases |pool| - i
  {
    if i < |pool| {
      var x := pool[i];
      if x in known || x in r.stored || x !in r.cl.lookup {
        PoolJams(r, pool, known, evict, i + 1, acc, main, t);
      } else {
        var o, known' := r.cfg.derive(r.cl.lookup[x], r.cl.lookup), AddKnown(known, x, evict, i);
        if o.Rejected? {
          PoolJams(r, pool, known', evict, i + 1, acc, main, t);
        } else if o.Derived? {
          var acc' := acc + [MakeTx(x, o.d, main, r.number, r.hash)];
          assert Ids(acc') == Ids(acc) + [x];
          if |acc'| < r.cfg.maxTxs {
            PoolJams(r, pool, known', evict, i + 1, acc', main, t);
          }
        }
      }
    }
  }

  lemma {:induction false} RoundJams(r: Round, derivable: Txid -> bool, known: set<Txid>, scanBlock: bool,
                                     evict: Evictor, h: int, t: Txid)
    requires Consistent(r.cfg, r.cl, derivable) && Jams(r.cfg, r.cl, h, t) && t !in known && t !in r.stored
    ensures var c := GetNewTxs(r, h - 1, known, scanBlock, evict);
            c.Collected? ==> c.scan == h - 1 && t !in c.known && t !in Ids(c.txs)
  {
    MainJams(r, known, scanBlock, h, t);
    hide CollectMain, CollectMempool;
    if r.cl.mempool.Some? {
      PoolJams(r, r.cl.mempool.value, known, evict, 0, [], 0, t);
    }
  }

  lemma {:induction false} CollectJams(cfg: Config, derivable: Txid -> bool, s: State, e: Event, h: int, t: Txid)
    requires Inv(cfg, derivable, s) && Fair(cfg, derivable, e) && e.Collect? && s.proc.Idle?
    requires Jams(cfg, e.cl, h, t) && Facing(cfg, s, h, t)
    ensures Facing(cfg, Apply(cfg, s, e), h, t)
  {
    hide GetNewTxs, ChainInv, Jams, BlockHash, AllIds, Consistent;
    var m := s.proc.m;
    RoundJams(RoundOf(cfg, s.store, m, e.cl), derivable, m.known, e.scanBlock, e.evict, h, t);
  }

  lemma {:induction false} CommitJams(cfg: Config, s: State, h: int, t: Txid)
    requires s.proc.Pending? && Facing(cfg, s, h, t)
    ensures Facing(cfg, Apply(cfg, s, Commit), h, t)
  {
    hide Ids;
    assert (s.store + [NewBlock(s.proc)])[..|s.store|] == s.store;
  }

  lemma {:induction false} StepJams(cfg: Config, derivable: Txid -> bool, s: State, e: Event, h: int, t: Txid)
    requires Inv(cfg, derivable, s) && Fair(cfg, derivable, e)
    requires (e.Collect? ==> Jams(cfg, e.cl, h, t)) && Facing(cfg, s, h, t)
    ensures Facing(cfg, Apply(cfg, s, e), h, t)
  {
    hide Inv, Fair, Jams, Collecting, AllIds, Ids, Persisted;
    if e.Collect? && s.proc.Idle? {
      CollectJams(cfg, derivable, s, e, h, t);
    } else if e.Commit? && s.proc.Pending? {
      CommitJams(cfg, s, h, t);
    }
  }

  /** While the node serves the jammed block, no run of rounds, crashes and restarts ever scans past it. */
  lemma {:induction false} NeverPasses(cfg: Config, derivable: Txid -> bool, s: State, events: seq<Event>, h: int,
                                       t: Txid)
    requires Inv(cfg, derivable, s) && AllFair(cfg, derivable, events) && cfg.genesis >= 0
    requires AllJam(cfg, events, h, t) && Facing(cfg, s, h, t)
    ensures Facing(cfg, Run(cfg, s, events), h, t)
  {
    hide Inv, Fair, Jams, Facing, Apply;
    if events != [] {
      var front, e := events[..|events| - 1], events[|events| - 1];
      NeverPasses(cfg, derivable, s, front, h, t);
      RunKeepsInv(cfg, derivable, s, front);
      StepJams(cfg, derivable, Run(cfg, s, front), e, h, t);
    }
  }

  // ---------------------------------------------------------------- a mempool id that panics

  /** After these stored blocks, a scanning round of this node gets to mempool id t with room left, and deriving
      t panics. */
  ghost predicate JamsPool(cfg: Config, derivable: Txid -> bool, store: seq<Block>, cl: Client, t: Txid) {
    var r := RoundAfter(cfg, store, cl);
    var n := |MainWanted(r, derivable, Persisted(cfg, store), true)|;
    exists i :: AsksId(r, derivable, n, i) && BadId(r, i) && Pool(cl)[i] == t
  }

  ghost predicate AllJamPool(cfg: Config, derivable: Txid -> bool, store: seq<Block>, events: seq<Event>, t: Txid) {
    forall i :: 0 <= i < |events| && events[i].Collect? ==> JamsPool(cfg, derivable, store, events[i].cl, t)
  }

  /** Such a round panics whether it scans or not, unless the cache holds t. */
  lemma {:induction false} PoolRoundPanics(r: Round, derivable: Txid -> bool, scan: int, known: set<Txid>,
                                           scanBlock: bool, evict: Evictor, i: nat)
    requires GoodRound(r, derivable, known) && i < |Pool(r.cl)| && Pool(r.cl)[i] !in known && BadId(r, i)
    requires AsksId(r, derivable, |MainWanted(r, derivable, scan, true)|, i)
    ensures GetNewTxs(r, scan, known, scanBlock, evict).Panicked?
  {
    var main := CollectMain(r, scan, known, scanBlock);
    if main.Some? {
      MainRoom(r, derivable, scan, known, scanBlock);
      assert scanBlock || main.value.txs == [];
      assert Pool(r.cl)[0..i] == Pool(r.cl)[..i];
      hide CollectMain, CollectMempool, Wanted, Found, Consistent, NoDup, BadId, FetchedIds;
      PoolPanicAt(r, derivable, known, evict, 0, main.value.txs, |main.value.txs|, i);
    }
  }

  /** No block is pending and the process has not cached t. */
  ghost predicate Halted(s: State, t: Txid) {
    !s.proc.Pending? && (s.proc.Idle? ==> t !in s.proc.m.known)
  }

  lemma {:induction false} StepHalts(cfg: Config, derivable: Txid -> bool, s: State, e: Event, t: Txid)
    requires Inv(cfg, derivable, s) && Fair(cfg, derivable, e) && Halted(s, t)
    requires e.Collect? ==> JamsPool(cfg, derivable, s.store, e.cl, t)
    ensures Apply(cfg, s, e).store == s.store && Halted(Apply(cfg, s, e), t)
  {
    hide GetNewTxs, ChainInv, BlockHash, AllIds, Consistent, NoDup, Wanted, Found, MainWanted, Recovered;
    if e.Collect? && s.proc.Idle? {
      var m, r := s.proc.m, RoundAfter(cfg, s.store, e.cl);
      assert r == RoundOf(cfg, s.store, m, e.cl) && m.scan == Persisted(cfg, s.store);
      var n := |MainWanted(r, derivable, m.scan, true)|;
      var i :| AsksId(r, derivable, n, i) && BadId(r, i) && Pool(e.cl)[i] == t;
      PoolRoundPanics(r, derivable, m.scan, m.known, e.scanBlock, e.evict, i);
    } else if e.Recover? && s.proc.Down? {
      EmptyCache(cfg, s.store, e.now);
    }
  }

  lemma {:induction false} EmptyCache(cfg: Config, store: seq<Block>, now: int)
    ensures Recovered(cfg, store, now).known == {}
  {
  }

  /** While every node has such an id in its mempool, no run of rounds, crashes and restarts writes a block:
      scanning and mempool-only rounds all panic. */
  lemma {:induction false} NothingWritten(cfg: Config, derivable: Txid -> bool, s: State, events: seq<Event>, t: Txid)
    requires Inv(cfg, derivable, s) && AllFair(cfg, derivable, events) && cfg.genesis >= 0
    requires AllJamPool(cfg, derivable, s.store, events, t) && Halted(s, t)
    ensures Run(cfg, s, events).store == s.store && Halted(Run(cfg, s, events), t)
  {
    hide Inv, Fair, JamsPool, Halted, Apply;
    if events != [] {
      var front, e := events[..|events| - 1], events[|events| - 1];
      NothingWritten(cfg, derivable, s, front, t);
      RunKeepsInv(cfg, derivable, s, front);
      StepHalts(cfg, derivable, Run(cfg, s, front), e, t);
    }
  }

  // ---------------------------------------------------------------- exactly when the scan stops

  /** Every round of these events asks this node. */
  ghost predicate AskOnly(events: seq<Event>, cl: Client) {
    forall i :: 0 <= i < |events| && events[i].Collect? ==> events[i].cl == cl
  }

  /** A block and a lookup give the same transaction for an id. */
  ghost predicate OneTx(cfg: Config, cl: Client) {
    forall h, i :: h in cl.blocks && 0 <= i < |cl.blocks[h]| ==> SameOutcome(cfg, cl, cl.blocks[h][i])
  }

  ghost predicate SameOutcome(cfg: Config, cl: Client, tx: RawTx) {
    tx.txid in cl.lookup ==> cfg.derive(cl.lookup[tx.txid], cl.lookup) == cfg.derive(tx, cl.lookup)
  }

  /** No continuation against this node moves the persisted scan height. */
  ghost predicate StuckForever(cfg: Config, derivable: Txid -> bool, s: State, cl: Client) {
    forall events: seq<Event> ::
      AllFair(cfg, derivable, events) && AskOnly(events, cl) ==>
        Persisted(cfg, Run(cfg, s, events).store) == Persisted(cfg, s.store)
  }

  /** There is no new block, or something makes the next scanning round panic. */
  ghost predicate NoWayOn(cfg: Config, derivable: Txid -> bool, store: seq<Block>, cl: Client) {
    || (cl.count.Some? && cl.count.value <= Persisted(cfg, store))
    || RoundPanics(RoundAfter(cfg, store, cl), derivable, Persisted(cfg, store), true)
  }

  /** The node can look t up and deriving it does not panic. */
  ghost predicate Tame(cfg: Config, cl: Client, t: Txid) {
    t in cl.lookup && cfg.derive(cl.lookup[t], cl.lookup) != Panic
  }

  lemma {:induction false} WantedFewer(ids: seq<Txid>, stored: set<Txid>, more: set<Txid>, derivable: Txid -> bool)
    requires stored <= more
    ensures |Wanted(ids, more, derivable)| <= |Wanted(ids, stored, derivable)|
  {
    if ids != [] {
      WantedFewer(ids[1..], stored, more, derivable);
    }
  }

  /** Two rounds of one node, the second with more stored ids, none of which panics. */
  ghost predicate Later(r: Round, later: Round) {
    && r.cfg == later.cfg && r.cl == later.cl && r.stored <= later.stored
    && forall t :: t in later.stored ==> t in r.stored || Tame(r.cfg, r.cl, t)
  }

  lemma {:induction false} StillBad(r: Round, later: Round, h: int)
    requires Later(r, later) && OneTx(r.cfg, r.cl) && BadBlock(r, h)
    ensures BadBlock(later, h)
  {
    if h in r.cl.blocks {
      var txs := r.cl.blocks[h];
      var i :| 0 <= i < |txs| && txs[i].txid !in r.stored && r.cfg.derive(txs[i], r.cl.lookup) == Panic;
      assert SameOutcome(r.cfg, r.cl, txs[i]);
      assert txs[i].txid !in later.stored;
    }
  }

  /** More stored ids leave more room, so a round goes at least as far and meets the same panic. */
  lemma {:induction false} PanicsLater(r: Round, later: Round, derivable: Txid -> bool, scan: int)
    requires Later(r, later) && OneTx(r.cfg, r.cl) && RoundPanics(r, derivable, scan, true)
    ensures RoundPanics(later, derivable, scan, true)
  {
    hide Wanted, FetchedIds, Found, BadBlock, OneTx;
    if MainPanics(r, derivable, scan) {
      if r.cl.count.Some? {
        var h :| AsksBlock(r, derivable, scan, h) && BadBlock(r, h);
        WantedFewer(FetchedIds(r.cl, scan + 1, h - 1), r.stored, later.stored, derivable);
        assert AsksBlock(later, derivable, scan, h);
        StillBad(r, later, h);
      }
    } else {
      WantedFewer(FetchedIds(r.cl, scan + 1, r.cl.count.value), r.stored, later.stored, derivable);
      if r.cl.mempool.Some? {
        var n := |MainWanted(r, derivable, scan, true)|;
        var i :| AsksId(r, derivable, n, i) && BadId(r, i);
        WantedFewer(Found(Pool(r.cl)[..i], r.cl.lookup), r.stored, later.stored, derivable);
        assert AsksId(later, derivable, |MainWanted(later, derivable, scan, true)|, i) && BadId(later, i);
      }
    }
  }

  /** The mempool part of a round stores and caches ids that do not panic. */
  lemma {:induction false} PoolTame(r: Round, pool: seq<Txid>, known: set<Txid>, evict: Evictor, i: nat, acc: seq<Tx>,
                                    main: nat)
    requires i <= |pool| && forall x :: x in r.cl.lookup ==> r.cl.lookup[x].txid == x
    requires (forall x :: x in known ==> Tame(r.cfg, r.cl, x)) && forall x :: x in Ids(acc) ==> Tame(r.cfg, r.cl, x)
    ensures var out := CollectMempool(r, pool, known, evict, i, acc, main);
            out.Some? ==>
              && (forall x :: x in out.value.known ==> Tame(r.cfg, r.cl, x))
              && (forall x :: x in Ids(out.value.txs) ==> Tame(r.cfg, r.cl, x))
    decreases |pool| - i
  {
    if i < |pool| {
      var x := pool[i];
      if x in known || x in r.stored || x !in r.cl.lookup {
        PoolTame(r, pool, known, evict, i + 1, acc, main);
      } else {
        var o, known' := r.cfg.derive(r.cl.lookup[x], r.cl.lookup), AddKnown(known, x, evict, i);
        if o.Rejected? {
          PoolTame(r, pool, known', evict, i + 1, acc, main);
        } else if o.Derived? {
          var acc' := acc + [MakeTx(x, o.d, main, r.number, r.hash)];
          assert Ids(acc') == Ids(acc) + [x];
          if |acc'| < r.cfg.maxTxs {
            PoolTame(r, pool, known', evict, i + 1, acc', main);
          }
        }
      }
    }
  }

  lemma {:induction false} TameHarmless(r: Round, known: set<Txid>)
    requires OneTx(r.cfg, r.cl) && forall x :: x in known ==> Tame(r.cfg, r.cl, x)
    ensures Harmless(r, known)
  {
    forall h, i | h in r.cl.blocks && 0 <= i < |r.cl.blocks[h]| && r.cl.blocks[h][i].txid in known
      ensures r.cfg.derive(r.cl.blocks[h][i], r.cl.lookup) != Panic
    {
      assert SameOutcome(r.cfg, r.cl, r.cl.blocks[h][i]);
    }
  }

  /** A round with no way on does not move the scan height, and what it takes from the mempool is tame. */
  lemma {:induction false} RoundStays(r: Round, derivable: Txid -> bool, scan: int, known: set<Txid>, scanBlock: bool,
                                      evict: Evictor)
    requires GoodRound(r, derivable, known) && OneTx(r.cfg, r.cl) && forall x :: x in known ==> Tame(r.cfg, r.cl, x)
    requires (r.cl.count.Some? && r.cl.count.value <= scan) || RoundPanics(r, derivable, scan, true)
    requires GetNewTxs(r, scan, known, scanBlock, evict).Collected?
    ensures var c := GetNewTxs(r, scan, known, scanBlock, evict);
            && c.scan == scan
            && (forall x :: x in c.known ==> Tame(r.cfg, r.cl, x))
            && (forall x :: x in Ids(c.txs) ==> Tame(r.cfg, r.cl, x))
  {
    hide RoundPanics, CollectMempool, CollectBlocks, Tame, NoDup, Harmless;
    TameHarmless(r, known);
    if scanBlock {
      RoundPanicsIff(r, derivable, scan, known, true, evict);
    }
    assert CollectMain(r, scan, known, scanBlock) == Some(Main([], scan));
    if r.cl.mempool.Some? {
      PoolTame(r, r.cl.mempool.value, known, evict, 0, [], 0);
    }
  }

  /** The run has stored tame ids only and has not moved the scan height. */
  ghost predicate Held(cfg: Config, store: seq<Block>, cl: Client, s: State) {
    && Persisted(cfg, s.store) == Persisted(cfg, store)
    && Stored(store) <= Stored(s.store)
    && (forall t :: t in Stored(s.store) ==> t in Stored(store) || Tame(cfg, cl, t))
    && (!s.proc.Down? ==> forall t :: t in s.proc.m.known ==> Tame(cfg, cl, t))
    && (s.proc.Pending? ==>
          s.proc.m.scan == Persisted(cfg, store) && forall t :: t in Ids(s.proc.txs) ==> Tame(cfg, cl, t))
  }

  lemma {:induction false} CollectHeld(cfg: Config, derivable: Txid -> bool, store: seq<Block>, s: State, e: Event)
    requires Inv(cfg, derivable, s) && Fair(cfg, derivable, e) && e.Collect? && s.proc.Idle?
    requires OneTx(cfg, e.cl) && NoWayOn(cfg, derivable, store, e.cl) && Held(cfg, store, e.cl, s)
    ensures Held(cfg, store, e.cl, Apply(cfg, s, e))
  {
    hide GetNewTxs, ChainInv, BlockHash, Stored, Consistent, NoDup, RoundPanics, OneTx, Tame, Ids;
    var m := s.proc.m;
    var r := RoundOf(cfg, s.store, m, e.cl);
    assert r == RoundAfter(cfg, s.store, e.cl) && m.scan == Persisted(cfg, store);
    if RoundPanics(RoundAfter(cfg, store, e.cl), derivable, m.scan, true) {
      PanicsLater(RoundAfter(cfg, store, e.cl), r, derivable, m.scan);
    }
    if CollectedBy(cfg, s, e).Collected? {
      RoundStays(r, derivable, m.scan, m.known, e.scanBlock, e.evict);
    }
  }

  lemma {:induction false} CommitHeld(cfg: Config, store: seq<Block>, cl: Client, s: State)
    requires s.proc.Pending? && Held(cfg, store, cl, s)
    ensures Held(cfg, store, cl, Apply(cfg, s, Commit))
  {
    hide Ids, Tame;
    assert (s.store + [NewBlock(s.proc)])[..|s.store|] == s.store;
    assert AllIds(s.store + [NewBlock(s.proc)]) == AllIds(s.store) + Ids(s.proc.txs);
  }

  lemma {:induction false} StepHeld(cfg: Config, derivable: Txid -> bool, store: seq<Block>, cl: Client, s: State,
                                    e: Event)
    requires Inv(cfg, derivable, s) && Fair(cfg, derivable, e) && (e.Collect? ==> e.cl == cl)
    requires OneTx(cfg, cl) && NoWayOn(cfg, derivable, store, cl) && Held(cfg, store, cl, s)
    ensures Held(cfg, store, cl, Apply(cfg, s, e))
  {
    hide Inv, Fair, Collecting, Stored, Persisted, OneTx, NoWayOn, Recovered, Ids;
    if e.Collect? && s.proc.Idle? {
      CollectHeld(cfg, derivable, store, s, e);
    } else if e.Commit? && s.proc.Pending? {
      CommitHeld(cfg, store, cl, s);
    } else if e.Recover? && s.proc.Down? {
      EmptyCache(cfg, s.store, e.now);
    }
  }

  lemma {:induction false} RunHeld(cfg: Config, derivable: Txid -> bool, s: State, cl: Client, events: seq<Event>)
    requires Inv(cfg, derivable, s) && s.proc.Down? && cfg.genesis >= 0
    requires OneTx(cfg, cl) && NoWayOn(cfg, derivable, s.store, cl)
    requires AllFair(cfg, derivable, events) && AskOnly(events, cl)
    ensures Held(cfg, s.store, cl, Run(cfg, s, events))
  {
    hide Inv, Fair, OneTx, NoWayOn, Apply, Persisted, Stored;
    if events != [] {
      var front, e := events[..|events| - 1], events[|events| - 1];
      RunHeld(cfg, derivable, s, cl, front);
      RunKeepsInv(cfg, derivable, s, front);
      hide Held;
      StepHeld(cfg, derivable, s.store, cl, Run(cfg, s, front), e);
    }
  }

  /** After a crash, whatever this node answers: the scan height can never move again if and only if there is
      no new block or the next scanning round panics, because of a block it asks for, the mempool, or a mempool
      id it looks at. Mempool rounds in between do not help: what they store leaves more room. */
  lemma {:induction false} StuckIff(cfg: Config, derivable: Txid -> bool, s: State, cl: Client)
    requires Inv(cfg, derivable, s) && s.proc.Down? && cfg.genesis >= 0
    requires Consistent(cfg, cl, derivable) && NoDup(Pool(cl)) && OneTx(cfg, cl)
    ensures StuckForever(cfg, derivable, s, cl) <==> NoWayOn(cfg, derivable, s.store, cl)
  {
    hide Inv, Consistent, OneTx, NoDup, Run, NoWayOn, Stored, Persisted;
    if NoWayOn(cfg, derivable, s.store, cl) {
      forall events: seq<Event> | AllFair(cfg, derivable, events) && AskOnly(events, cl)
        ensures Persisted(cfg, Run(cfg, s, events).store) == Persisted(cfg, s.store)
      {
        RunHeld(cfg, derivable, s, cl, events);
      }
    } else {
      var events := Advancing(cfg, derivable, s, cl);
      hide StuckForever;
      if StuckForever(cfg, derivable, s, cl) {
        Unstuck(cfg, derivable, s, cl, events);
      }
    }
  }

  lemma {:induction false} Unstuck(cfg: Config, derivable: Txid -> bool, s: State, cl: Client, events: seq<Event>)
    requires AllFair(cfg, derivable, events) && AskOnly(events, cl) && StuckForever(cfg, derivable, s, cl)
    ensures Persisted(cfg, Run(cfg, s, events).store) == Persisted(cfg, s.store)
  {
  }

  /** Otherwise recovering and scanning once moves the scan height. */
  lemma {:induction false} Advancing(cfg: Config, derivable: Txid -> bool, s: State, cl: Client)
    returns (events: seq<Event>)
    requires Inv(cfg, derivable, s) && s.proc.Down? && cfg.genesis >= 0
    requires Consistent(cfg, cl, derivable) && NoDup(Pool(cl)) && !NoWayOn(cfg, derivable, s.store, cl)
    ensures AllFair(cfg, derivable, events) && AskOnly(events, cl)
    ensures Persisted(cfg, Run(cfg, s, events).store) > Persisted(cfg, s.store)
  {
    hide Inv, Consistent, NoDup, GetNewTxs, RoundPanics, RoundAfter, Persisted;
    var evict: Evictor := (i, known) => if known == {} then [] else Any(known);
    assert Picks(evict);
    var collect := Collect(cl, true, evict, 0);
    events := [Recover(0), collect, Commit];
    var up := Apply(cfg, s, Recover(0));
    RecoveredReady(cfg, derivable, s, cl);
    var m, r := up.proc.m, RoundAfter(cfg, s.store, cl);
    CountThere(r, derivable, m.scan);
    RoundPanicsIff(r, derivable, m.scan, m.known, true, evict);
    ScanMoves(r, m.scan, m.known, evict);
    WrittenScan(cfg, up, collect);
    ChainTheorems.RunThree(cfg, s, Recover(0), collect, Commit);
  }

  ghost function Any(known: set<Txid>): (t: Txid)
    requires known != {}
    ensures t in known
  {
    var t :| t in known;
    t
  }

  lemma {:induction false} CountThere(r: Round, derivable: Txid -> bool, scan: int)
    requires !RoundPanics(r, derivable, scan, true)
    ensures r.cl.count.Some? && Harmless(r, {})
  {
  }

  lemma {:induction false} RecoveredReady(cfg: Config, derivable: Txid -> bool, s: State, cl: Client)
    requires Inv(cfg, derivable, s) && s.proc.Down? && cfg.genesis >= 0
    ensures var up, r := Apply(cfg, s, Recover(0)), RoundAfter(cfg, s.store, cl);
            && up.store == s.store && up.proc.Idle? && up.proc.m.scan == Persisted(cfg, s.store)
            && up.proc.m.known == {} && r.cl == cl && r.cfg == cfg && RoundOf(cfg, s.store, up.proc.m, cl) == r
  {
    RecoverKeepsInv(cfg, derivable, s, 0);
    hide ChainInv, BlockHash, AllIds;
  }

  lemma {:induction false} ScanMoves(r: Round, scan: int, known: set<Txid>, evict: Evictor)
    requires GetNewTxs(r, scan, known, true, evict).Collected? && r.cl.count.Some? && scan < r.cl.count.value
    ensures GetNewTxs(r, scan, known, true, evict).scan > scan
  {
    hide CollectMempool, CollectBlock;
    var h, newest := scan + 1, r.cl.count.value;
    var next := CollectBlock(r, known, r.cl.blocks[h], []).value;
    if |next| < r.cfg.maxTxs {
      BlocksScan(r, known, h + 1, newest, next);
    }
  }

  lemma {:induction false} WrittenScan(cfg: Config, s: State, e: Event)
    requires s.proc.Idle? && e.Collect? && e.scanBlock && CollectedBy(cfg, s, e).Collected?
    ensures Persisted(cfg, Apply(cfg, Apply(cfg, s, e), Commit).store) == CollectedBy(cfg, s, e).scan
  {
    hide GetNewTxs, BlockHash, Stored;
  }

  // ---------------------------------------------------------------- Bitcoin Cash

  /** The node serves an EGTX transaction t at height h with an input that is not readable as P2PKH or P2SH. */
  ghost predicate ServesUnreadable(cl: Client, h: int, t: Txid) {
    && h in cl.blocks
    && (exists i :: && 0 <= i < |cl.blocks[h]| && cl.blocks[h][i].txid == t
                    && !InputsReadable(cl.blocks[h][i].vin, cl.lookup))
    && (t in cl.lookup ==> !InputsReadable(cl.lookup[t].vin, cl.lookup))
  }

  lemma {:induction false} UnreadablePanics(content: Txid -> RawTx, tx: RawTx, lookup: Lookup)
    requires Adapter.Names(content, tx) && Derivable(content(tx.txid)) && !InputsReadable(tx.vin, lookup)
    ensures Derive(tx, lookup) == Panic
  {
    Adapter.SameOutputs(tx, content(tx.txid));
    hide Derivable, Derive;
    AcceptsExactlyDerivable(tx, lookup);
  }

  /** Blocks and lookups that agree on inputs and outputs agree on the outcome; the number of confirmations
      plays no part. */
  lemma {:induction false} BchOneTx(cfg: Config, cl: Client)
    requires Adapter.DerivesEgtx(cfg)
    requires forall h, i :: h in cl.blocks && 0 <= i < |cl.blocks[h]| ==> SameInputsAndOutputs(cl, cl.blocks[h][i])
    ensures OneTx(cfg, cl)
  {
    hide Derive;
    forall h, i | h in cl.blocks && 0 <= i < |cl.blocks[h]|
      ensures SameOutcome(cfg, cl, cl.blocks[h][i])
    {
      var tx := cl.blocks[h][i];
      assert SameInputsAndOutputs(cl, tx);
      if tx.txid in cl.lookup {
        SameDerive(tx, cl.lookup[tx.txid], cl.lookup);
      }
    }
  }

  ghost predicate SameInputsAndOutputs(cl: Client, tx: RawTx) {
    tx.txid in cl.lookup ==> cl.lookup[tx.txid].vin == tx.vin && cl.lookup[tx.txid].vout == tx.vout
  }

  lemma {:induction false} SameDerive(a: RawTx, b: RawTx, lookup: Lookup)
    requires a.vin == b.vin && a.vout == b.vout
    ensures Derive(a, lookup) == Derive(b, lookup)
  {
    hide Infos, Tokens, LaterData, Split, PushedHex, HasPrefix, AfterFlag, SpentOutputs;
  }

  /** A witness: what the builder prints for an unspent output that is not readable as P2PKH or P2SH, once it
      is in the block at height h, jams the scan there. */
  lemma {:induction false} BuiltJams(cfg: Config, s: TxBuilder.Sender, u: TxBuilder.Unspent, txid: Txid, cl: Client,
                                     h: int)
    requires Adapter.DerivesEgtx(cfg) && TxBuilder.Sized(s) && TxBuilder.Accepts(s, u)
    requires var tx := TxBuilder.NodeView(txid, u, TxBuilder.Outputs(s, u));
             && h in cl.blocks && tx in cl.blocks[h] && (txid in cl.lookup ==> cl.lookup[txid] == tx)
    requires Spent(Vin(Some(u.txid), u.index), cl.lookup).None?
    ensures Jams(cfg, cl, h, txid)
  {
    hide Derive, TxBuilder.Outputs;
    TxBuilder.BuiltPanicsIff(s, u, txid, cl.lookup);
    var tx := TxBuilder.NodeView(txid, u, TxBuilder.Outputs(s, u));
    var i :| 0 <= i < |cl.blocks[h]| && cl.blocks[h][i] == tx;
    assert cl.blocks[h][i].txid == txid && cfg.derive(cl.blocks[h][i], cl.lookup) == Panic;
  }

  /** One EGTX transaction that spends an output which is neither P2PKH nor P2SH stops the scan below its
      block, in every run against nodes that serve it. */
  lemma {:induction false} BchNeverPasses(cfg: Config, content: Txid -> RawTx, s: State, events: seq<Event>, h: int,
                                          t: Txid)
    requires Adapter.DerivesEgtx(cfg) && cfg.genesis >= 0 && Adapter.BchRun(content, events)
    requires Inv(cfg, t => Derivable(content(t)), s) && Facing(cfg, s, h, t) && Derivable(content(t))
    requires forall i :: 0 <= i < |events| && events[i].Collect? ==> ServesUnreadable(events[i].cl, h, t)
    ensures Persisted(cfg, Run(cfg, s, events).store) == h - 1 && t !in AllIds(Run(cfg, s, events).store)
  {
    hide Derivable, Derive, Inv, Run, AllIds, Persisted;
    Adapter.BchFair(cfg, content, events);
    forall i | 0 <= i < |events| && events[i].Collect?
      ensures Jams(cfg, events[i].cl, h, t)
    {
      UnreadableJams(cfg, content, events[i].cl, h, t);
    }
    hide Jams;
    NeverPasses(cfg, t => Derivable(content(t)), s, events, h, t);
  }

  lemma {:induction false} UnreadableJams(cfg: Config, content: Txid -> RawTx, cl: Client, h: int, t: Txid)
    requires Adapter.DerivesEgtx(cfg) && Adapter.ByContent(cl, content) && Derivable(content(t))
             && ServesUnreadable(cl, h, t)
    ensures Jams(cfg, cl, h, t)
  {
    hide Derivable, Derive, Adapter.Names, InputsReadable;
    var i :| 0 <= i < |cl.blocks[h]| && cl.blocks[h][i].txid == t && !InputsReadable(cl.blocks[h][i].vin, cl.lookup);
    UnreadablePanics(content, cl.blocks[h][i], cl.lookup);
    if t in cl.lookup {
      UnreadablePanics(content, cl.lookup[t], cl.lookup);
    }
  }
}
