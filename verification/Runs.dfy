/** The virtual chain, its store and the scanner as one state machine with crashes and restarts
    (chains/adapter.go, scanner/bch.go, store/store.go). */
module Runs {
  import opened Bytes
  import opened ChainTypes
  import opened Egtx
  import opened Scanner
  import opened Origins

  // ---------------------------------------------------------------- block hashes

  function Decimal(n: nat): (s: string)
    ensures s != []
  {
    var digit := [(n % 10 + '0' as int) as char];
    if n < 10 then digit else Decimal(n / 10) + digit
  }

  lemma {:induction false} DecimalInjective(m: nat, n: nat)
    requires Decimal(m) == Decimal(n)
    ensures m == n
    decreases m
  {
    var s := Decimal(m);
    assert s[|s| - 1] == (m % 10 + '0' as int) as char == (n % 10 + '0' as int) as char;
    if m >= 10 && n >= 10 {
      assert s[..|s| - 1] == Decimal(m / 10) == Decimal(n / 10);
      DecimalInjective(m / 10, n / 10);
    }
  }

  /** The number a string of decimal digits denotes. */
  ghost function DigitsValue(s: string): int {
    if s == [] then 0 else DigitsValue(s[..|s| - 1]) * 10 + (s[|s| - 1] as int - '0' as int)
  }

  /** The string is a number written in decimal digits without a leading zero. */
  ghost predicate Writes(s: string, n: nat) {
    && s != [] && (forall i :: 0 <= i < |s| ==> '0' <= s[i] <= '9') && (|s| > 1 ==> s[0] != '0')
    && DigitsValue(s) == n
  }

  lemma {:induction false} DecimalWrites(n: nat)
    ensures Writes(Decimal(n), n)
  {
    var s := Decimal(n);
    var digit := (n % 10 + '0' as int) as char;
    if n < 10 {
      assert s[..0] == [] && DigitsValue([]) == 0;
    } else {
      DecimalWrites(n / 10);
      assert s == Decimal(n / 10) + [digit] && s[..|s| - 1] == Decimal(n / 10);
    }
  }

  /** sha256 of the chain name, a colon and the height of the block before. */
  function BlockHash(cfg: Config, height: nat): Hash {
    cfg.sha(cfg.name + ":" + Decimal(height))
  }

  /** The hashed text is the chain's name, a colon and the height in decimal. */
  ghost predicate HashesHeight(cfg: Config, hash: Hash, height: nat) {
    exists digits: string :: Writes(digits, height) && hash == cfg.sha(cfg.name + ":" + digits)
  }

  lemma {:induction false} BlockHashText(cfg: Config, height: nat)
    ensures HashesHeight(cfg, BlockHash(cfg, height), height)
  {
    DecimalWrites(height);
    hide Writes;
  }

  const ZERO_HASH: Hash := Zeros(32)

  /** The hash function never collides and never yields the zero hash. */
  ghost predicate IdealHash(cfg: Config) {
    && (forall a: string, b: string :: cfg.sha(a) == cfg.sha(b) ==> a == b)
    && (forall a: string :: cfg.sha(a) != ZERO_HASH)
  }

  lemma {:induction false} BlockHashInjective(cfg: Config, m: nat, n: nat)
    requires IdealHash(cfg) && BlockHash(cfg, m) == BlockHash(cfg, n)
    ensures m == n
  {
    var p := cfg.name + ":";
    assert (p + Decimal(m))[|p|..] == Decimal(m) && (p + Decimal(n))[|p|..] == Decimal(n);
    DecimalInjective(m, n);
  }

  // ---------------------------------------------------------------- states and steps

  /** The process memory; since counts the stored blocks at the last recovery. */
  datatype Memory = Memory(height: nat, hash: Hash, prev: Hash, timestamp: int, scan: int, known: set<Txid>, since: nat)

  /** Where a block came from: the node's answers, the heights lo + 1 .. hi fetched from it, and the clock. */
  datatype Source = Source(cl: Client, lo: int, hi: int, now: int)

  /** Pending: GetNewTxs has returned and the block is not written yet. */
  datatype Process =
    | Down
    | Idle(m: Memory)
    | Pending(m: Memory, txs: seq<Tx>, hash: Hash, source: Source)

  /** sources is history: what each stored block was made from. */
  datatype State = State(store: seq<Block>, sources: seq<Source>, proc: Process)

  datatype Event =
    | Recover(now: int)
    | Collect(cl: Client, scanBlock: bool, evict: Evictor, now: int)
    | Commit
    | Crash

  function AllIds(store: seq<Block>): seq<Txid> {
    if store == [] then [] else AllIds(store[..|store| - 1]) + Ids(store[|store| - 1].txs)
  }

  /** What IsTxMined answers: a transaction with this hash is in the store. */
  function Stored(store: seq<Block>): set<Txid> {
    set t | t in AllIds(store)
  }

  function TipHash(store: seq<Block>): Hash {
    if store == [] then ZERO_HASH else store[|store| - 1].hash
  }

  /** The scan height the store remembers, genesis while it is empty. */
  function Persisted(cfg: Config, store: seq<Block>): int {
    if store == [] then cfg.genesis else store[|store| - 1].gasUsed
  }

  /** RecoveryFromDB over GetLatestBlockInfo: a stored height of 0 counts as none. */
  function Recovered(cfg: Config, store: seq<Block>, now: int): Memory {
    if store == [] then Memory(0, ZERO_HASH, ZERO_HASH, now, cfg.genesis, {}, 0)
    else
      var tip := store[|store| - 1];
      Memory(tip.number, tip.hash, tip.hash, tip.timestamp,
             if tip.gasUsed == 0 then cfg.genesis else tip.gasUsed, {}, |store|)
  }

  function FetchedBlocks(cl: Client, lo: int, hi: int): seq<seq<RawTx>>
    decreases hi - lo
  {
    if lo > hi then [] else [if lo in cl.blocks then cl.blocks[lo] else []] + FetchedBlocks(cl, lo + 1, hi)
  }

  /** The main-chain blocks fetched for the stored blocks, from genesis + 1 on. */
  function Covered(sources: seq<Source>): seq<seq<RawTx>> {
    if sources == [] then []
    else
      var last := sources[|sources| - 1];
      Covered(sources[..|sources| - 1]) + FetchedBlocks(last.cl, last.lo + 1, last.hi)
  }

  function RoundOf(cfg: Config, store: seq<Block>, m: Memory, cl: Client): Round {
    Round(cfg, cl, Stored(store), m.height + 1, BlockHash(cfg, m.height))
  }

  /** GenerateNewBlock up to the write. */
  function Collecting(cfg: Config, store: seq<Block>, m: Memory, cl: Client, scanBlock: bool, evict: Evictor,
                      now: int): Process {
    var r := RoundOf(cfg, store, m, cl);
    match GetNewTxs(r, m.scan, m.known, scanBlock, evict)
    case Panicked => Down
    case Collected(txs, _, scan, known) =>
      var m' := m.(scan := scan, known := known);
      if txs == [] && !scanBlock then Idle(m')
      else Pending(m', txs, r.hash, Source(cl, m.scan, scan, now))
  }

  function NewBlock(p: Process): Block
    requires p.Pending?
  {
    Block(p.m.height + 1, p.hash, p.m.prev, 0, p.source.now, p.m.scan, p.txs)
  }

  /** Events that do not fit the process state change nothing. A panic ends the process. */
  function Apply(cfg: Config, s: State, e: Event): State {
    match e
    case Crash => s.(proc := Down)
    case Recover(now) => if s.proc.Down? then s.(proc := Idle(Recovered(cfg, s.store, now))) else s
    case Collect(cl, scanBlock, evict, now) =>
      if s.proc.Idle? then s.(proc := Collecting(cfg, s.store, s.proc.m, cl, scanBlock, evict, now)) else s
    case Commit =>
      if s.proc.Pending? then
        State(s.store + [NewBlock(s.proc)], s.sources + [s.proc.source],
              Idle(s.proc.m.(height := s.proc.m.height + 1, hash := s.proc.hash, timestamp := s.proc.source.now)))
      else s
  }

  function Run(cfg: Config, s: State, events: seq<Event>): State {
    if events == [] then s else Apply(cfg, Run(cfg, s, events[..|events| - 1]), events[|events| - 1])
  }

  const EMPTY: State := State([], [], Down)

  // ---------------------------------------------------------------- assumptions about the events

  /** The node is consistent and its mempool names no id twice. */
  ghost predicate Fair(cfg: Config, derivable: Txid -> bool, e: Event) {
    e.Collect? ==> Consistent(cfg, e.cl, derivable) && NoDup(Pool(e.cl)) && Picks(e.evict)
  }

  ghost predicate AllFair(cfg: Config, derivable: Txid -> bool, events: seq<Event>) {
    forall i :: 0 <= i < |events| ==> Fair(cfg, derivable, events[i])
  }

  // ---------------------------------------------------------------- invariant

  /** The round that fills the block after these blocks. */
  ghost function RoundAfter(cfg: Config, before: seq<Block>, cl: Client): Round {
    Round(cfg, cl, Stored(before), |before| + 1, BlockHash(cfg, |before|))
  }

  /** The main-chain ids a round should store: derivable, fetched and not stored before. */
  ghost function MainIds(derivable: Txid -> bool, before: seq<Block>, src: Source): seq<Txid> {
    Wanted(FetchedIds(src.cl, src.lo + 1, src.hi), Stored(before), derivable)
  }

  /** The mempool ids a round should store: derivable, not stored before, and as many as still fit. */
  ghost function PoolIds(cfg: Config, derivable: Txid -> bool, before: seq<Block>, src: Source): seq<Txid> {
    First(PoolWanted(RoundAfter(cfg, before, src.cl), Pool(src.cl), 0, derivable),
          cfg.maxTxs - |MainIds(derivable, before, src)|)
  }

  /** These are exactly the transactions the round from this source puts after these blocks: first the
      main-chain ids, then the mempool ids, with positions counting up through the main-chain ones only, each
      carrying what its raw transaction derives to. */
  ghost predicate Made(cfg: Config, derivable: Txid -> bool, before: seq<Block>, src: Source, txs: seq<Tx>) {
    && src.lo == Persisted(cfg, before) <= src.hi
    && (forall h :: src.lo < h <= src.hi ==> h in src.cl.blocks)
    && NoDup(Pool(src.cl))
    && Ids(txs) == MainIds(derivable, before, src) + PoolIds(cfg, derivable, before, src)
    && Shaped(txs, |MainIds(derivable, before, src)|, |before| + 1, BlockHash(cfg, |before|))
    && Traced(cfg, src.cl, src.lo + 1, src.hi, |MainIds(derivable, before, src)|, txs)
  }

  ghost predicate BlockOk(cfg: Config, derivable: Txid -> bool, before: seq<Block>, src: Source, b: Block) {
    && b.number == |before| + 1 && b.hash == BlockHash(cfg, |before|)
    && b.timestamp == 0 && b.size == src.now && b.gasUsed == src.hi
    && Made(cfg, derivable, before, src, b.txs)
  }

  ghost predicate ChainInv(cfg: Config, derivable: Txid -> bool, store: seq<Block>, sources: seq<Source>) {
    |sources| == |store| && forall k :: 0 <= k < |store| ==> BlockOk(cfg, derivable, store[..k], sources[k], store[k])
  }

  ghost predicate MemoryInv(cfg: Config, store: seq<Block>, m: Memory) {
    && m.height == |store| && m.hash == TipHash(store)
    && m.since <= |store| && m.prev == TipHash(store[..m.since])
    && |m.known| <= MAX_CACHE_SIZE + 1
  }

  ghost predicate ProcessInv(cfg: Config, derivable: Txid -> bool, store: seq<Block>, p: Process) {
    match p
    case Down => true
    case Idle(m) =>
      && MemoryInv(cfg, store, m) && m.scan == Persisted(cfg, store)
      && CacheOk(m.known, Stored(store), derivable)
    case Pending(m, txs, hash, source) =>
      && MemoryInv(cfg, store, m) && m.scan == source.hi
      && hash == BlockHash(cfg, |store|) && Made(cfg, derivable, store, source, txs)
      && (forall t :: t in m.known ==> t in AllIds(store) + Ids(txs) || !derivable(t))
  }

  ghost predicate Inv(cfg: Config, derivable: Txid -> bool, s: State) {
    ChainInv(cfg, derivable, s.store, s.sources) && ProcessInv(cfg, derivable, s.store, s.proc)
  }

  // ---------------------------------------------------------------- ids of a round

  lemma {:induction false} WantedMembers(ids: seq<Txid>, stored: set<Txid>, derivable: Txid -> bool)
    ensures forall t :: t in Wanted(ids, stored, derivable) <==> t in ids && t !in stored && derivable(t)
    ensures NoDup(ids) ==> NoDup(Wanted(ids, stored, derivable))
  {
    if ids != [] {
      WantedMembers(ids[1..], stored, derivable);
    }
  }

  lemma {:induction false} FoundMembers(pool: seq<Txid>, lookup: Lookup)
    ensures forall t :: t in Found(pool, lookup) <==> t in pool && t in lookup
    ensures NoDup(pool) ==> NoDup(Found(pool, lookup))
  {
    if pool != [] {
      FoundMembers(pool[1..], lookup);
    }
  }

  /** What a round stores is derivable and was not stored before, and it misses nothing it fetched. */
  lemma {:induction false} RoundIdsGood(cfg: Config, derivable: Txid -> bool, before: seq<Block>, src: Source)
    requires NoDup(Pool(src.cl))
    ensures var main, pool := MainIds(derivable, before, src), PoolIds(cfg, derivable, before, src);
            && NoDup(pool) && (forall t :: t in main + pool ==> t !in AllIds(before) && derivable(t))
            && (forall t :: t in FetchedIds(src.cl, src.lo + 1, src.hi) && derivable(t) ==> t in AllIds(before) + main)
            && (NoDup(FetchedIds(src.cl, src.lo + 1, src.hi)) ==> NoDup(main))
  {
    WantedMembers(FetchedIds(src.cl, src.lo + 1, src.hi), Stored(before), derivable);
    hide Wanted, FetchedIds, First, PoolWanted, BlockHash;
    var pool := TakenMembers(RoundAfter(cfg, before, src.cl), derivable,
                             cfg.maxTxs - |MainIds(derivable, before, src)|);
  }

  /** The mempool part of a round: distinct, new, derivable ids of the mempool. */
  lemma {:induction false} TakenMembers(r: Round, derivable: Txid -> bool, n: int) returns (taken: seq<Txid>)
    requires NoDup(Pool(r.cl))
    ensures taken == First(PoolWanted(r, Pool(r.cl), 0, derivable), n)
    ensures NoDup(taken) && forall t :: t in taken ==> t in Pool(r.cl) && t !in r.stored && derivable(t)
  {
    var pool := Pool(r.cl);
    assert pool[0..] == pool;
    FoundMembers(pool, r.cl.lookup);
    WantedMembers(Found(pool, r.cl.lookup), r.stored, derivable);
    taken := First(PoolWanted(r, pool, 0, derivable), n);
    hide Wanted, Found;
    assert forall t :: t in taken ==> t in PoolWanted(r, pool, 0, derivable);
  }

  ghost predicate Disjoint(a: seq<Txid>, b: seq<Txid>) {
    forall t :: t in a ==> t !in b
  }

  lemma {:induction false} NoDupIff(a: seq<Txid>, b: seq<Txid>)
    ensures NoDup(a + b) <==> NoDup(a) && NoDup(b) && Disjoint(a, b)
  {
    if NoDup(a + b) {
      NoDupParts(a, b);
    }
    if NoDup(a) && NoDup(b) && Disjoint(a, b) {
      NoDupJoined(a, b);
    }
  }

  lemma {:induction false} NoDupParts(a: seq<Txid>, b: seq<Txid>)
    requires NoDup(a + b)
    ensures NoDup(a) && NoDup(b) && forall t :: t in a ==> t !in b
  {
    assert forall i :: 0 <= i < |a| ==> (a + b)[i] == a[i];
    assert forall i :: 0 <= i < |b| ==> (a + b)[|a| + i] == b[i];
  }

  lemma {:induction false} NoDupJoined(a: seq<Txid>, b: seq<Txid>)
    requires NoDup(a) && NoDup(b) && forall t :: t in a ==> t !in b
    ensures NoDup(a + b)
  {
    var ab := a + b;
    forall i, j | 0 <= i < j < |ab|
      ensures ab[i] != ab[j]
    {
      if i < |a| <= j {
        assert ab[i] in a && ab[j] == b[j - |a|];
      }
    }
  }

  lemma {:induction false} FetchedBlocksAt(cl: Client, lo: int, hi: int)
    requires forall k :: lo <= k <= hi ==> k in cl.blocks
    ensures |FetchedBlocks(cl, lo, hi)| == if lo > hi then 0 else hi - lo + 1
    ensures forall k :: 0 <= k < |FetchedBlocks(cl, lo, hi)| ==> FetchedBlocks(cl, lo, hi)[k] == cl.blocks[lo + k]
    decreases hi - lo
  {
    if lo <= hi {
      FetchedBlocksAt(cl, lo + 1, hi);
    }
  }

  lemma {:induction false} FetchedHas(cl: Client, lo: int, hi: int, h: int, i: nat)
    requires lo <= h <= hi && h in cl.blocks && i < |cl.blocks[h]|
    ensures cl.blocks[h][i].txid in FetchedIds(cl, lo, hi)
    decreases hi - lo
  {
    if h == lo {
      assert BlockIds(cl.blocks[h])[i] == cl.blocks[h][i].txid;
    } else {
      FetchedHas(cl, lo + 1, hi, h, i);
    }
  }

  /** Every derivable transaction of these main-chain blocks is among the ids. */
  ghost predicate Covers(ids: seq<Txid>, blocks: seq<seq<RawTx>>, derivable: Txid -> bool) {
    forall k, i :: 0 <= k < |blocks| && 0 <= i < |blocks[k]| && derivable(blocks[k][i].txid) ==>
      blocks[k][i].txid in ids
  }

  /** If every derivable fetched id is among these ids, the fetched blocks are covered. */
  lemma {:induction false} FetchedCovered(cl: Client, lo: int, hi: int, ids: seq<Txid>, derivable: Txid -> bool)
    requires forall k :: lo <= k <= hi ==> k in cl.blocks
    requires forall t :: t in FetchedIds(cl, lo, hi) && derivable(t) ==> t in ids
    ensures Covers(ids, FetchedBlocks(cl, lo, hi), derivable)
  {
    FetchedBlocksAt(cl, lo, hi);
    var blocks: seq<seq<RawTx>> := FetchedBlocks(cl, lo, hi);
    forall k, i | 0 <= k < |blocks| && 0 <= i < |blocks[k]| && derivable(blocks[k][i].txid)
      ensures blocks[k][i].txid in ids
    {
      FetchedHas(cl, lo, hi, lo + k, i);
    }
  }

  // ---------------------------------------------------------------- every step keeps the invariant

  /** What a step that collects starts from. */
  ghost predicate Collects(cfg: Config, derivable: Txid -> bool, s: State, e: Event) {
    && Inv(cfg, derivable, s) && s.proc.Idle? && e.Collect? && Fair(cfg, derivable, e)
    && CollectedBy(cfg, s, e).Collected?
  }

  ghost function CollectedBy(cfg: Config, s: State, e: Event): Collected
    requires s.proc.Idle? && e.Collect?
  {
    GetNewTxs(RoundOf(cfg, s.store, s.proc.m, e.cl), s.proc.m.scan, s.proc.m.known, e.scanBlock, e.evict)
  }

  /** A completed round has made what its source calls for. */
  lemma {:induction false} CollectForm(cfg: Config, derivable: Txid -> bool, s: State, e: Event)
    requires Collects(cfg, derivable, s, e)
    ensures var c, m := CollectedBy(cfg, s, e), s.proc.m;
            && (e.scanBlock || c.scan == m.scan)
            && Made(cfg, derivable, s.store, Source(e.cl, m.scan, c.scan, e.now), c.txs)
  {
    hide Inv, Fair, GetNewTxs, Made, GoodRound, RoundOf, RoundAfter, Persisted, NoDup, Pool;
    GoodHere(cfg, derivable, s, e);
    var m := s.proc.m;
    RoundMakes(cfg, derivable, s.store, RoundOf(cfg, s.store, m, e.cl), m.scan, m.known, e.scanBlock, e.evict, e.now);
  }

  lemma {:induction false} RoundMakes(cfg: Config, derivable: Txid -> bool, before: seq<Block>, r: Round, scan: int,
                                      known: set<Txid>, scanBlock: bool, evict: Evictor, now: int)
    requires r == RoundAfter(cfg, before, r.cl) && scan == Persisted(cfg, before) && NoDup(Pool(r.cl))
    requires GoodRound(r, derivable, known) && GetNewTxs(r, scan, known, scanBlock, evict).Collected?
    ensures var c := GetNewTxs(r, scan, known, scanBlock, evict);
            && (scanBlock || c.scan == scan)
            && Made(cfg, derivable, before, Source(r.cl, scan, c.scan, now), c.txs)
  {
    assert r.cfg == cfg;
    hide GetNewTxs, Made, GoodRound, RoundIds, RoundAfter, Wanted, FetchedIds, Persisted, Shaped, Ids, NoDup, Pool,
      Traced;
    RoundForm(r, derivable, scan, known, scanBlock, evict);
    RoundOrigins(r, scan, known, scanBlock, evict);
    MadeHere(cfg, derivable, before, r, scan, GetNewTxs(r, scan, known, scanBlock, evict), now);
  }

  lemma {:induction false} MadeHere(cfg: Config, derivable: Txid -> bool, before: seq<Block>, r: Round, scan: int,
                                    c: Collected, now: int)
    requires c.Collected? && r == RoundAfter(cfg, before, r.cl) && scan == Persisted(cfg, before) <= c.scan
    requires (forall h :: scan < h <= c.scan ==> h in r.cl.blocks) && NoDup(Pool(r.cl))
    requires c.main == |Wanted(FetchedIds(r.cl, scan + 1, c.scan), r.stored, derivable)|
    requires Ids(c.txs) == RoundIds(r, derivable, scan + 1, c.scan) && Shaped(c.txs, c.main, r.number, r.hash)
    requires Traced(cfg, r.cl, scan + 1, c.scan, c.main, c.txs)
    ensures Made(cfg, derivable, before, Source(r.cl, scan, c.scan, now), c.txs)
  {
    hide Traced, Wanted, FetchedIds, PoolWanted, First, Pool, NoDup, Persisted, Shaped, BlockHash, Stored, Ids;
  }

  lemma {:induction false} GoodHere(cfg: Config, derivable: Txid -> bool, s: State, e: Event)
    requires Collects(cfg, derivable, s, e)
    ensures s.proc.Idle? && e.Collect? && CollectedBy(cfg, s, e).Collected? && s.proc.m.height == |s.store|
    ensures s.proc.m.scan == Persisted(cfg, s.store) && NoDup(Pool(e.cl))
    ensures var r := RoundOf(cfg, s.store, s.proc.m, e.cl);
            r == RoundAfter(cfg, s.store, e.cl) && r.cl == e.cl && GoodRound(r, derivable, s.proc.m.known)
  {
    hide GetNewTxs, AllIds, BlockHash, ChainInv;
  }

  lemma {:induction false} CollectCache(cfg: Config, derivable: Txid -> bool, s: State, e: Event)
    requires Collects(cfg, derivable, s, e)
    ensures var c := CollectedBy(cfg, s, e);
            && (forall t :: t in c.known ==> t in AllIds(s.store) + Ids(c.txs) || !derivable(t))
            && |c.known| <= MAX_CACHE_SIZE + 1
  {
    var m := s.proc.m;
    hide ChainInv;
    RoundCache(RoundOf(cfg, s.store, m, e.cl), derivable, m.scan, m.known, e.scanBlock, e.evict);
  }

  /** The process after a round's collecting part, in terms of what it collected. */
  lemma {:induction false} CollectResult(cfg: Config, s: State, e: Event)
    requires s.proc.Idle? && e.Collect? && CollectedBy(cfg, s, e).Collected?
    ensures var c, m := CollectedBy(cfg, s, e), s.proc.m;
            var m' := m.(scan := c.scan, known := c.known);
            Apply(cfg, s, e) == s.(proc :=
              if c.txs == [] && !e.scanBlock then Idle(m')
              else Pending(m', c.txs, BlockHash(cfg, m.height), Source(e.cl, m.scan, c.scan, e.now)))
  {
    hide GetNewTxs, BlockHash, Stored;
  }

  lemma {:induction false} CollectedInv(cfg: Config, derivable: Txid -> bool, s: State, e: Event)
    requires Inv(cfg, derivable, s) && s.proc.Idle? && e.Collect? && CollectedBy(cfg, s, e).Collected?
    requires var c, m := CollectedBy(cfg, s, e), s.proc.m;
             && (e.scanBlock || c.scan == m.scan)
             && Made(cfg, derivable, s.store, Source(e.cl, m.scan, c.scan, e.now), c.txs)
             && (forall t :: t in c.known ==> t in AllIds(s.store) + Ids(c.txs) || !derivable(t))
             && |c.known| <= MAX_CACHE_SIZE + 1
    ensures Inv(cfg, derivable, Apply(cfg, s, e))
  {
    CollectResult(cfg, s, e);
    hide Apply, CollectedBy, AllIds, ChainInv, Made, BlockHash, TipHash;
  }

  lemma {:induction false} CollectKeepsInv(cfg: Config, derivable: Txid -> bool, s: State, e: Event)
    requires Inv(cfg, derivable, s) && e.Collect? && Fair(cfg, derivable, e) && s.proc.Idle?
    ensures Inv(cfg, derivable, Apply(cfg, s, e))
  {
    if CollectedBy(cfg, s, e).Collected? {
      CollectForm(cfg, derivable, s, e);
      CollectCache(cfg, derivable, s, e);
      hide Inv, CollectedBy, AllIds, Ids, Fair, Made, BlockHash, Apply;
      CollectedInv(cfg, derivable, s, e);
    } else {
      hide GetNewTxs, AllIds, Fair, ChainInv, BlockHash;
      assert Apply(cfg, s, e) == s.(proc := Down);
    }
  }

  lemma {:induction false} CommitKeepsInv(cfg: Config, derivable: Txid -> bool, s: State)
    requires Inv(cfg, derivable, s) && s.proc.Pending?
    ensures Inv(cfg, derivable, Apply(cfg, s, Commit))
  {
    hide ChainInv, ProcessInv, BlockOk, CacheOk;
    CommitBlock(cfg, derivable, s.store, s.proc);
    ChainAppended(cfg, derivable, s.store, s.sources, NewBlock(s.proc), s.proc.source);
    CommitMemory(cfg, derivable, s.store, s.proc);
  }

  lemma {:induction false} CommitBlock(cfg: Config, derivable: Txid -> bool, store: seq<Block>, p: Process)
    requires p.Pending? && ProcessInv(cfg, derivable, store, p)
    ensures BlockOk(cfg, derivable, store, p.source, NewBlock(p))
  {
    hide Made, BlockHash, AllIds, Ids, TipHash;
  }

  lemma {:induction false} CommitMemory(cfg: Config, derivable: Txid -> bool, store: seq<Block>, p: Process)
    requires p.Pending? && ProcessInv(cfg, derivable, store, p)
    ensures var m := p.m.(height := p.m.height + 1, hash := p.hash, timestamp := p.source.now);
            ProcessInv(cfg, derivable, store + [NewBlock(p)], Idle(m))
  {
    var store' := store + [NewBlock(p)];
    assert store'[..|store'| - 1] == store;
    assert AllIds(store') == AllIds(store) + Ids(p.txs);
    assert store'[..p.m.since] == store[..p.m.since];
    hide AllIds, Made, BlockHash, TipHash, Ids;
    TipOfAppended(store, NewBlock(p));
  }

  lemma {:induction false} ChainAppended(cfg: Config, derivable: Txid -> bool, store: seq<Block>, sources: seq<Source>,
                                         b: Block, src: Source)
    requires ChainInv(cfg, derivable, store, sources) && BlockOk(cfg, derivable, store, src, b)
    ensures ChainInv(cfg, derivable, store + [b], sources + [src])
  {
    hide BlockOk;
    var store', sources' := store + [b], sources + [src];
    forall k | 0 <= k < |store'|
      ensures BlockOk(cfg, derivable, store'[..k], sources'[k], store'[k])
    {
      assert store'[..k] == store[..k];
      assert store[..|store|] == store;
    }
  }

  lemma {:induction false} ChainFront(cfg: Config, derivable: Txid -> bool, store: seq<Block>, sources: seq<Source>)
    requires ChainInv(cfg, derivable, store, sources) && store != []
    ensures |sources| == |store|
    ensures var n := |store| - 1;
            && ChainInv(cfg, derivable, store[..n], sources[..n])
            && BlockOk(cfg, derivable, store[..n], sources[n], store[n])
  {
    hide BlockOk;
    var n := |store| - 1;
    forall k | 0 <= k < n
      ensures BlockOk(cfg, derivable, store[..n][..k], sources[..n][k], store[..n][k])
    {
      assert store[..n][..k] == store[..k];
    }
  }

  /** The scan height never falls below genesis. */
  lemma {:induction false} PersistedBound(cfg: Config, derivable: Txid -> bool, store: seq<Block>, sources: seq<Source>)
    requires ChainInv(cfg, derivable, store, sources)
    ensures cfg.genesis <= Persisted(cfg, store)
  {
    if store != [] {
      var n := |store| - 1;
      ChainFront(cfg, derivable, store, sources);
      hide ChainInv, BlockHash, Ids, Shaped, MainIds, PoolIds, Traced;
      PersistedBound(cfg, derivable, store[..n], sources[..n]);
    }
  }

  lemma TipOfAppended(store: seq<Block>, b: Block)
    ensures TipHash(store + [b]) == b.hash
  {
  }

  lemma {:induction false} RecoverKeepsInv(cfg: Config, derivable: Txid -> bool, s: State, now: int)
    requires Inv(cfg, derivable, s) && cfg.genesis >= 0
    ensures Inv(cfg, derivable, Apply(cfg, s, Recover(now)))
  {
    hide AllIds, ChainInv, BlockHash;
    assert s.store[..|s.store|] == s.store;
    PersistedBound(cfg, derivable, s.store, s.sources);
    if s.store != [] {
      TipOf(cfg, derivable, s.store, s.sources);
    }
  }

  lemma {:induction false} TipOf(cfg: Config, derivable: Txid -> bool, store: seq<Block>, sources: seq<Source>)
    requires ChainInv(cfg, derivable, store, sources) && store != []
    ensures store[|store| - 1].number == |store| && store[|store| - 1].hash == TipHash(store)
    ensures store[|store| - 1].timestamp == 0
  {
    hide Made, BlockHash;
    var n := |store| - 1;
    assert BlockOk(cfg, derivable, store[..n], sources[n], store[n]);
  }

  lemma {:induction false} StepKeepsInv(cfg: Config, derivable: Txid -> bool, s: State, e: Event)
    requires Inv(cfg, derivable, s) && Fair(cfg, derivable, e) && cfg.genesis >= 0
    ensures Inv(cfg, derivable, Apply(cfg, s, e))
  {
    match e
    case Crash =>
    case Recover(now) => RecoverKeepsInv(cfg, derivable, s, now);
    case Collect(_, _, _, _) => if s.proc.Idle? { CollectKeepsInv(cfg, derivable, s, e); }
    case Commit => if s.proc.Pending? { CommitKeepsInv(cfg, derivable, s); }
  }

  lemma {:induction false} RunKeepsInv(cfg: Config, derivable: Txid -> bool, s: State, events: seq<Event>)
    requires Inv(cfg, derivable, s) && AllFair(cfg, derivable, events) && cfg.genesis >= 0
    ensures Inv(cfg, derivable, Run(cfg, s, events))
  {
    if events != [] {
      RunKeepsInv(cfg, derivable, s, events[..|events| - 1]);
      hide Inv, Apply;
      StepKeepsInv(cfg, derivable, Run(cfg, s, events[..|events| - 1]), events[|events| - 1]);
    }
  }
}
