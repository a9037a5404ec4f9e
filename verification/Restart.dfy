/** Restarts do not show: a run with restarts and lost rounds writes the same blocks as the run of its
    written rounds alone, up to parent hashes. */
module Restart {
  import opened Bytes
  import opened ChainTypes
  import opened Egtx
  import opened Scanner
  import opened Runs
  import opened Completion

  // ---------------------------------------------------------------- the same blocks up to parents

  ghost predicate SameBlocks(a: seq<Block>, b: seq<Block>) {
    |a| == |b| && forall k :: 0 <= k < |a| ==> a[k] == b[k].(parentHash := a[k].parentHash)
  }

  lemma {:induction false} SameIds(a: seq<Block>, b: seq<Block>)
    requires SameBlocks(a, b)
    ensures AllIds(a) == AllIds(b)
  {
    if a != [] {
      SameIds(a[..|a| - 1], b[..|b| - 1]);
    }
  }

  /** A round that is written, a restart, or a round lost to a crash before its block was written. */
  datatype Act =
    | Written(e: Event)
    | Restarted(now: int)
    | Lost(e: Event, now: int)

  function Perform(cfg: Config, s: State, a: Act): State {
    match a
    case Written(e) => Apply(cfg, Apply(cfg, s, e), Commit)
    case Restarted(now) => Apply(cfg, Apply(cfg, s, Crash), Recover(now))
    case Lost(e, now) => Apply(cfg, Apply(cfg, Apply(cfg, s, e), Crash), Recover(now))
  }

  function PerformAll(cfg: Config, s: State, acts: seq<Act>): State {
    if acts == [] then s else Perform(cfg, PerformAll(cfg, s, acts[..|acts| - 1]), acts[|acts| - 1])
  }

  /** Only the written rounds. */
  function Undisturbed(acts: seq<Act>): seq<Act> {
    if acts == [] then []
    else
      var last := acts[|acts| - 1];
      Undisturbed(acts[..|acts| - 1]) + (if last.Written? then [last] else [])
  }

  /** The round is fair; if it is to be written, nothing makes it panic for what is stored and scanned by
      then, that is, it completes with an empty cache. */
  ghost predicate GoodAct(cfg: Config, derivable: Txid -> bool, s: State, a: Act) {
    && (!a.Restarted? ==> a.e.Collect? && Fair(cfg, derivable, a.e))
    && (a.Written? ==> CompletesFrom(cfg, derivable, s.store, a.e))
  }

  ghost predicate CompletesFrom(cfg: Config, derivable: Txid -> bool, store: seq<Block>, e: Event)
    requires e.Collect?
  {
    !RoundPanics(RoundAfter(cfg, store, e.cl), derivable, Persisted(cfg, store), e.scanBlock)
  }

  ghost predicate GoodActs(cfg: Config, derivable: Txid -> bool, s: State, acts: seq<Act>) {
    acts == [] ||
    (var front := acts[..|acts| - 1];
     GoodActs(cfg, derivable, s, front) && GoodAct(cfg, derivable, PerformAll(cfg, s, front), acts[|acts| - 1]))
  }

  /** Both processes wait for the next round over the same chain up to parent hashes. */
  ghost predicate Alike(cfg: Config, derivable: Txid -> bool, s: State, t: State) {
    && Inv(cfg, derivable, s) && Inv(cfg, derivable, t)
    && s.proc.Idle? && t.proc.Idle? && SameBlocks(s.store, t.store)
  }

  lemma {:induction false} AlikeCollect(cfg: Config, derivable: Txid -> bool, s: State, t: State, e: Event)
    requires Alike(cfg, derivable, s, t) && e.Collect? && Fair(cfg, derivable, e)
    requires CompletesFrom(cfg, derivable, s.store, e)
    ensures CollectedBy(cfg, s, e).Collected? && CollectedBy(cfg, t, e).Collected?
    ensures var a, b := CollectedBy(cfg, s, e), CollectedBy(cfg, t, e);
            a.txs == b.txs && a.scan == b.scan
    ensures s.proc.m.height == t.proc.m.height == |s.store| && s.proc.m.scan == t.proc.m.scan
  {
    hide RoundPanics, GetNewTxs, AllIds, ChainInv, Consistent, NoDup;
    var m, n := s.proc.m, t.proc.m;
    SameIds(s.store, t.store);
    var r := RoundOf(cfg, s.store, m, e.cl);
    assert r == RoundOf(cfg, t.store, n, e.cl) == RoundAfter(cfg, s.store, e.cl) && m.scan == n.scan;
    RoundPanicsIff(r, derivable, m.scan, m.known, e.scanBlock, e.evict);
    RoundPanicsIff(r, derivable, m.scan, n.known, e.scanBlock, e.evict);
    CachesAgree(r, derivable, m.scan, e.scanBlock, m.known, e.evict, n.known, e.evict);
  }

  lemma {:induction false} WrittenAlike(cfg: Config, derivable: Txid -> bool, s: State, t: State, e: Event)
    requires Alike(cfg, derivable, s, t) && e.Collect? && Fair(cfg, derivable, e)
    requires CompletesFrom(cfg, derivable, s.store, e)
    requires cfg.genesis >= 0
    ensures Alike(cfg, derivable, Perform(cfg, s, Written(e)), Perform(cfg, t, Written(e)))
  {
    hide Inv, Fair, Apply, CompletesFrom, SameBlocks, CollectedBy;
    var s1, t1 := Apply(cfg, s, e), Apply(cfg, t, e);
    StepKeepsInv(cfg, derivable, s, e);
    StepKeepsInv(cfg, derivable, t, e);
    StepKeepsInv(cfg, derivable, s1, Commit);
    StepKeepsInv(cfg, derivable, t1, Commit);
    AlikeCollect(cfg, derivable, s, t, e);
    AlikeCommit(cfg, s, t, e);
  }

  lemma {:induction false} AlikeCommit(cfg: Config, s: State, t: State, e: Event)
    requires e.Collect? && s.proc.Idle? && t.proc.Idle? && SameBlocks(s.store, t.store)
    requires CollectedBy(cfg, s, e).Collected? && CollectedBy(cfg, t, e).Collected?
    requires CollectedBy(cfg, s, e).txs == CollectedBy(cfg, t, e).txs
             && CollectedBy(cfg, s, e).scan == CollectedBy(cfg, t, e).scan
    requires s.proc.m.height == t.proc.m.height
    ensures var s', t' := Perform(cfg, s, Written(e)), Perform(cfg, t, Written(e));
            s'.proc.Idle? && t'.proc.Idle? && SameBlocks(s'.store, t'.store)
  {
    hide GetNewTxs, FetchedBlocks, BlockHash, Stored, AllIds;
  }

  lemma {:induction false} RestartedAlike(cfg: Config, derivable: Txid -> bool, s: State, t: State, now: int)
    requires Alike(cfg, derivable, s, t) && cfg.genesis >= 0
    ensures Alike(cfg, derivable, Perform(cfg, s, Restarted(now)), t)
  {
    hide Inv, Recovered;
    StepKeepsInv(cfg, derivable, s, Crash);
    StepKeepsInv(cfg, derivable, Apply(cfg, s, Crash), Recover(now));
  }

  lemma {:induction false} LostAlike(cfg: Config, derivable: Txid -> bool, s: State, t: State, e: Event, now: int)
    requires Alike(cfg, derivable, s, t) && e.Collect? && Fair(cfg, derivable, e) && cfg.genesis >= 0
    ensures Alike(cfg, derivable, Perform(cfg, s, Lost(e, now)), t)
  {
    hide Inv, Fair, Collecting, Recovered;
    StepKeepsInv(cfg, derivable, s, e);
    StepKeepsInv(cfg, derivable, Apply(cfg, s, e), Crash);
    StepKeepsInv(cfg, derivable, Apply(cfg, Apply(cfg, s, e), Crash), Recover(now));
  }

  lemma {:induction false} AlikeRuns(cfg: Config, derivable: Txid -> bool, s: State, acts: seq<Act>)
    requires Inv(cfg, derivable, s) && s.proc.Idle? && GoodActs(cfg, derivable, s, acts) && cfg.genesis >= 0
    ensures Alike(cfg, derivable, PerformAll(cfg, s, acts), PerformAll(cfg, s, Undisturbed(acts)))
  {
    if acts != [] {
      var front, last := acts[..|acts| - 1], acts[|acts| - 1];
      AlikeRuns(cfg, derivable, s, front);
      var x, y := PerformAll(cfg, s, front), PerformAll(cfg, s, Undisturbed(front));
      assert GoodAct(cfg, derivable, x, last);
      hide Alike, Inv, Perform, CompletesFrom, Fair;
      match last
      case Written(e) =>
        WrittenAlike(cfg, derivable, x, y, e);
        assert Undisturbed(acts)[..|Undisturbed(acts)| - 1] == Undisturbed(front);
      case Restarted(now) =>
        RestartedAlike(cfg, derivable, x, y, now);
        assert Undisturbed(acts) == Undisturbed(front);
      case Lost(e, now) =>
        LostAlike(cfg, derivable, x, y, e, now);
        assert Undisturbed(acts) == Undisturbed(front);
    }
  }

  /** Restart transparency, from any state a run can be in between two rounds. */
  lemma {:induction false} RestartTransparent(cfg: Config, derivable: Txid -> bool, s: State, acts: seq<Act>)
    requires Inv(cfg, derivable, s) && s.proc.Idle? && GoodActs(cfg, derivable, s, acts) && cfg.genesis >= 0
    ensures var disturbed, calm := PerformAll(cfg, s, acts), PerformAll(cfg, s, Undisturbed(acts));
            && SameBlocks(disturbed.store, calm.store)
            && disturbed.proc.Idle? && calm.proc.Idle?
            && disturbed.proc.m.scan == calm.proc.m.scan && disturbed.proc.m.height == calm.proc.m.height
  {
    AlikeRuns(cfg, derivable, s, acts);
  }

  /** Why written rounds must not panic: a mempool id whose derivation panics now, and that the cache holds
      because it was rejected before, is skipped by the running process and panics in a restarted one. */
  lemma {:induction false} CacheHidesPanic(r: Round, derivable: Txid -> bool, scan: int, t: Txid, evict: Evictor)
    requires r.cl.mempool == Some([t]) && t in r.cl.lookup && t !in r.stored && !derivable(t) && r.cfg.maxTxs >= 1
    requires r.cfg.derive(r.cl.lookup[t], r.cl.lookup) == Panic
    ensures CacheOk({t}, r.stored, derivable)
    ensures GetNewTxs(r, scan, {t}, false, evict) == Collected([], 0, scan, {t})
    ensures GetNewTxs(r, scan, {}, false, evict).Panicked?
  {
    assert CollectMempool(r, [t], {t}, evict, 1, [], 0) == Some(Pooled([], {t}));
  }
}
