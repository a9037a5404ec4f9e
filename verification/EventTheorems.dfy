/** What holds over every interleaving of the event system. */
module EventTheorems {
  import opened Bytes
  import opened ChainTypes
  import opened Filters
  import opened EventSystem

  lemma {:induction false} InitInv()
    ensures Inv(INIT)
  {
  }

  // ---------------------------------------------------------------- delivery

  function LogsIn(events: seq<Event>): seq<Log> {
    if events == [] then []
    else
      var e := events[|events| - 1];
      LogsIn(events[..|events| - 1]) + (if e.ChainEvent? then [] else e.logs)
  }

  function HeadersIn(events: seq<Event>): seq<Item> {
    if events == [] then []
    else
      var e := events[|events| - 1];
      HeadersIn(events[..|events| - 1]) + (if e.ChainEvent? then [HashItem(e.header)] else [])
  }

  lemma {:induction false} MatchedTogether(kind: Kind, events: seq<Event>)
    ensures kind.LogKind? ==>
              AllMatched(kind, events)
                == Items(MatchLogs(Bounded(LogsIn(events), kind.from, kind.to), kind.addresses, kind.topics))
    ensures kind.HeadKind? ==> AllMatched(kind, events) == HeadersIn(events)
  {
    if events != [] {
      var front, e := events[..|events| - 1], events[|events| - 1];
      MatchedTogether(kind, front);
      if kind.LogKind? {
        var more := if e.ChainEvent? then [] else e.logs;
        FilterConcat(LogsIn(front), more, kind.from, kind.to, kind.addresses, kind.topics);
        assert Bounded([], kind.from, kind.to) == [] && MatchLogs([], kind.addresses, kind.topics) == [];
        assert Matched(kind, e) == Items(MatchLogs(Bounded(more, kind.from, kind.to), kind.addresses, kind.topics));
        ItemsConcat(MatchLogs(Bounded(LogsIn(front), kind.from, kind.to), kind.addresses, kind.topics),
                    MatchLogs(Bounded(more, kind.from, kind.to), kind.addresses, kind.topics));
      }
    }
  }

  lemma ItemsConcat(a: seq<Log>, b: seq<Log>)
    ensures Items(a + b) == Items(a) + Items(b)
  {
  }

  /** Delivery conservation: in every interleaving, what a subscription nobody has unsubscribed was given,
      then its buffer, then the batch in its goroutine's hands, then what the event in progress still has for
      it, is exactly the filter over all events handled since it was installed. */
  lemma {:induction false} DeliveryConserved(steps: seq<Step>, id: Id)
    requires id in Run(INIT, steps).subs && Run(INIT, steps).subs[id].unsub.NotCalled?
    ensures var s := Run(INIT, steps);
            var sub := s.subs[id];
            var path := sub.delivered + Buffered(sub) + InHand(sub) + Unsent(s.loop, id, sub.kind);
            match sub.kind
            case LogKind(from, to, addresses, topics) =>
              path == Items(MatchLogs(Bounded(LogsIn(sub.handled), from, to), addresses, topics))
            case HeadKind => path == HeadersIn(sub.handled)
  {
    InitInv();
    RunKeepsInv(INIT, steps);
    var s := Run(INIT, steps);
    assert SubInvIn(s, id);
    MatchedTogether(s.subs[id].kind, s.subs[id].handled);
  }

  // ---------------------------------------------------------------- uninstalling

  /** Over every run, the installed and err channels of a subscription are closed at most once. */
  lemma {:induction false} ClosedAtMostOnce(steps: seq<Step>, id: Id)
    requires id in Run(INIT, steps).subs
    ensures var sub := Run(INIT, steps).subs[id];
            sub.installedCloses <= 1 && sub.errCloses <= 1
  {
    InitInv();
    RunKeepsInv(INIT, steps);
    assert SubInvIn(Run(INIT, steps), id);
  }

  lemma {:induction false} RunSplit(s: State, a: seq<Step>, b: seq<Step>)
    ensures Run(s, a + b) == Run(Run(s, a), b)
  {
    if b == [] {
      assert a + b == a;
    } else {
      RunSplit(s, a, b[..|b| - 1]);
      assert (a + b)[..|a + b| - 1] == a + b[..|b| - 1];
      hide Apply;
    }
  }

  lemma {:induction false} RunOne(s: State, st: Step)
    ensures Run(s, [st]) == Apply(s, st)
  {
    assert [st][..0] == [];
    assert Run(s, []) == s;
    hide Apply;
  }

  lemma {:induction false} RunCons(s: State, st: Step, rest: seq<Step>)
    ensures Run(s, [st] + rest) == Run(Apply(s, st), rest)
  {
    RunSplit(s, [st], rest);
    RunOne(s, st);
  }

  lemma {:induction false} StaysReturned(s: State, st: Step, id: Id)
    requires Inv(s) && id in s.subs && s.subs[id].unsub.Returned?
    ensures id in Apply(s, st).subs && Apply(s, st).subs[id].unsub.Returned?
  {
    assert SubInvIn(s, id);
    hide Conserved, Matched;
  }

  /** Once Unsubscribe has returned, no continuation of the run sends on the subscription's channels again. */
  lemma {:induction false} NoSendAfterReturn(s: State, steps: seq<Step>, id: Id)
    requires Inv(s) && id in s.subs && s.subs[id].unsub.Returned?
    ensures var s' := Run(s, steps);
            && id in s'.subs && s'.subs[id].unsub.Returned? && id !in s'.index
            && !Enabled(s', Pick(id)) && !Enabled(s', Deliver(id)) && !Enabled(s', Drain(id))
               && !Enabled(s', Uninstall(id))
  {
    if steps != [] {
      var front := steps[..|steps| - 1];
      NoSendAfterReturn(s, front, id);
      RunKeepsInv(s, front);
      StaysReturned(Run(s, front), steps[|steps| - 1], id);
    }
    RunKeepsInv(s, steps);
    assert SubInvIn(Run(s, steps), id);
    hide SubInv, Apply, Effect, Run;
    Quiescent(Run(s, steps), id);
  }

  lemma {:induction false} Quiescent(s: State, id: Id)
    requires Inv(s) && id in s.subs && s.subs[id].unsub.Returned?
    ensures id !in s.index
    ensures !Enabled(s, Pick(id)) && !Enabled(s, Deliver(id)) && !Enabled(s, Drain(id)) && !Enabled(s, Uninstall(id))
  {
    assert SubInvIn(s, id);
  }

  // ---------------------------------------------------------------- progress

  /** Steps that need nothing from outside: no new subscription, event, poll, sweep or stop. */
  predicate Internal(st: Step) {
    || st.SeeInstalled? || st.Register? || st.Spawn? || st.Append? || st.Notify? || st.Pick? || st.Deliver? || st.Drain?
    || st.EndBroadcast? || st.Uninstall? || st.SeeErr?
  }

  predicate AllInternal(steps: seq<Step>) {
    forall i :: 0 <= i < |steps| ==> Internal(steps[i])
  }

  /** Nobody's Unsubscribe has moved. */
  ghost predicate SameUnsubs(s: State, s': State) {
    forall x :: x in s.subs ==> x in s'.subs && s'.subs[x].unsub == s.subs[x].unsub
  }

  /** Steps of its own a subscription needs before it can receive. */
  function Rank(sub: Sub): nat {
    if sub.creator.Waiting? then (if sub.polling then 3 else 2)
    else if sub.creator.Registering? then 2
    else if sub.creator.Spawning? then 1
    else if sub.reader.Holding? then 1
    else 0
  }

  function NextOwnStep(sub: Sub, id: Id): Step {
    if sub.creator.Waiting? then SeeInstalled(id)
    else if sub.creator.Registering? then Register(id)
    else if sub.creator.Spawning? then Spawn(id)
    else if sub.polling then Append(id)
    else Notify(id)
  }

  /** Whether the subscription needs filtersMu before it can receive. */
  predicate NeedsLock(sub: Sub) {
    sub.polling && (sub.reader.Holding? || sub.creator.Waiting? || sub.creator.Registering?)
  }

  /** Nothing has happened to the other subscriptions. */
  ghost predicate OthersSame(s: State, s': State, g: Id) {
    forall x :: x in s.subs && x != g ==> x in s'.subs && s'.subs[x] == s.subs[x]
  }

  ghost predicate BlockedOn(s: State, g: Id) {
    s.loop.Broadcasting? && s.loop.current == Some(g)
  }

  /** The subscription's own next step is possible and brings it closer to receiving. */
  ghost predicate Advances(s: State, g: Id)
    requires g in s.subs
  {
    var st := NextOwnStep(s.subs[g], g);
    var s' := Apply(s, st);
    && Internal(st) && Enabled(s, st) && s'.loop == s.loop && s'.mutex == s.mutex
    && SameUnsubs(s, s') && OthersSame(s, s', g)
    && g in s'.subs && Rank(s'.subs[g]) < Rank(s.subs[g]) && (s'.mutex.Free? || !NeedsLock(s'.subs[g]))
  }

  lemma {:induction false} CreatorStep(s: State, g: Id)
    requires Inv(s) && BlockedOn(s, g) && g in s.subs && !s.subs[g].unsub.Draining? && !s.subs[g].creator.Done?
    requires s.mutex.Free? || !NeedsLock(s.subs[g])
    ensures Advances(s, g)
  {
    hide Conserved, Matched, Unsent;
    assert SubInvIn(s, g);
    hide Inv;
  }

  lemma {:induction false} HolderStep(s: State, g: Id)
    requires Inv(s) && BlockedOn(s, g) && g in s.subs && s.subs[g].creator.Done? && s.subs[g].reader.Holding?
    requires s.mutex.Free? || !NeedsLock(s.subs[g])
    ensures Advances(s, g)
  {
    hide Conserved, Matched, Unsent, Inv;
  }

  lemma {:induction false} OwnStep(s: State, g: Id)
    requires Inv(s) && BlockedOn(s, g) && g in s.subs && !s.subs[g].unsub.Draining? && Rank(s.subs[g]) > 0
    requires s.mutex.Free? || !NeedsLock(s.subs[g])
    ensures Advances(s, g)
  {
    if s.subs[g].creator.Done? {
      HolderStep(s, g);
    } else {
      CreatorStep(s, g);
    }
  }

  lemma {:induction false} CanSend(s: State, g: Id)
    requires Inv(s) && BlockedOn(s, g) && g in s.subs && (s.subs[g].unsub.Draining? || Rank(s.subs[g]) == 0)
    ensures var st := if s.subs[g].unsub.Draining? then Drain(g) else Deliver(g);
            && Enabled(s, st) && Apply(s, st).loop == s.loop.(current := None) && Apply(s, st).mutex == s.mutex
            && SameUnsubs(s, Apply(s, st)) && OthersSame(s, Apply(s, st), g)
  {
    assert SubInvIn(s, g);
    hide Conserved, Matched, Unsent;
  }

  /** A blocked send completes after at most four internal steps: the receiver gets ready, or the draining
      unsubscriber takes the batch. */
  lemma {:induction false} SendCompletes(s: State, g: Id) returns (steps: seq<Step>)
    requires Inv(s) && BlockedOn(s, g) && g in s.subs
    requires s.subs[g].unsub.Draining? || s.mutex.Free? || !NeedsLock(s.subs[g])
    ensures |steps| <= 1 + Rank(s.subs[g]) && AllInternal(steps)
    ensures var s' := Run(s, steps);
            && Inv(s') && s'.loop == s.loop.(current := None) && s'.mutex == s.mutex
            && SameUnsubs(s, s') && OthersSame(s, s', g)
    decreases Rank(s.subs[g])
  {
    hide Inv, Apply, Run, NextOwnStep, NeedsLock, SameUnsubs, OthersSame, Enabled;
    if s.subs[g].unsub.Draining? || Rank(s.subs[g]) == 0 {
      CanSend(s, g);
      var st := if s.subs[g].unsub.Draining? then Drain(g) else Deliver(g);
      RunOne(s, st);
      StepKeepsInv(s, st);
      steps := [st];
    } else {
      var st := NextOwnStep(s.subs[g], g);
      var s1 := Apply(s, st);
      OwnStep(s, g);
      StepKeepsInv(s, st);
      var rest := SendCompletes(s1, g);
      RunCons(s, st, rest);
      SameTwice(s, s1, Run(s1, rest), g);
      steps := [st] + rest;
    }
  }

  lemma SameTwice(a: State, b: State, c: State, g: Id)
    requires SameUnsubs(a, b) && SameUnsubs(b, c) && OthersSame(a, b, g) && OthersSame(b, c, g)
    ensures SameUnsubs(a, c) && OthersSame(a, c, g)
  {
  }

  /** The broadcast has something for g, which needs filtersMu before it can receive it. */
  ghost predicate Stalls(s: State, g: Id) {
    && s.loop.Broadcasting? && g in s.subs && !s.subs[g].unsub.Draining? && NeedsLock(s.subs[g])
    && (s.loop.current == Some(g) || (g in s.loop.todo && Matched(s.subs[g].kind, s.loop.event) != []))
  }

  /** The mutex is free or the broadcast in progress can do without it. */
  ghost predicate Passable(s: State) {
    s.mutex.Free? || forall g :: !Stalls(s, g)
  }

  lemma {:induction false} PickOne(s: State, g: Id)
    requires Inv(s) && s.loop.Broadcasting? && s.loop.current.None? && g in s.loop.todo && Passable(s)
    ensures Enabled(s, Pick(g))
    ensures var s' := Apply(s, Pick(g));
            && s'.loop.Broadcasting? && s'.loop.todo == s.loop.todo - {g} && s'.mutex == s.mutex && SameUnsubs(s, s')
            && Passable(s')
  {
    var s' := Apply(s, Pick(g));
    hide Matched, SubInvIn;
    assert s'.subs == s.subs && s'.loop.event == s.loop.event;
    forall x | Stalls(s', x)
      ensures Stalls(s, x)
    {
    }
  }

  lemma {:induction false} SentPassable(s: State, s': State, g: Id)
    requires Inv(s) && BlockedOn(s, g) && Passable(s) && s'.subs.Keys == s.subs.Keys
    requires s'.loop == s.loop.(current := None) && s'.mutex == s.mutex && OthersSame(s, s', g)
    ensures Passable(s')
  {
    hide Matched, SubInvIn, NeedsLock;
    forall x | Stalls(s', x)
      ensures Stalls(s, x)
    {
    }
  }

  lemma RankBound(sub: Sub)
    ensures Rank(sub) <= 3
  {
  }

  lemma EndedAfter(a: State, b: State, c: State)
    requires SameUnsubs(a, b) && Ended(b, c) && a.mutex == b.mutex
    ensures Ended(a, c)
  {
  }

  function BroadcastBound(loop: Loop): nat
    requires loop.Broadcasting?
  {
    5 * |loop.todo| + (if loop.current.Some? then 5 else 1)
  }

  /** The loop is ready again and nothing else that matters to an unsubscriber has moved. */
  ghost predicate Ended(s: State, s': State) {
    Inv(s') && s'.loop.Ready? && s'.mutex == s.mutex && SameUnsubs(s, s')
  }

  /** A broadcast in progress ends after a bounded number of internal steps. */
  lemma {:induction false} BroadcastEnds(s: State) returns (steps: seq<Step>)
    requires Inv(s) && s.loop.Broadcasting? && Passable(s)
    ensures |steps| <= BroadcastBound(s.loop) && AllInternal(steps)
    ensures Ended(s, Run(s, steps))
    decreases |s.loop.todo|, 1
  {
    hide Apply, Run, Rank, SameUnsubs, OthersSame, NeedsLock, SubInvIn, Ended, Matched;
    if s.loop.current.Some? {
      var g := s.loop.current.value;
      assert s.mutex.Free? || !Stalls(s, g);
      var first := SendCompletes(s, g);
      assert |first| <= 4 by { RankBound(s.subs[g]); }
      var mid := Run(s, first);
      KeysKept(s, first);
      SentPassable(s, mid, g);
      hide Passable;
      var rest := NextSends(mid);
      RunSplit(s, first, rest);
      EndedAfter(s, mid, Run(mid, rest));
      steps := first + rest;
    } else {
      steps := NextSends(s);
    }
  }

  /** Internal steps create no subscription. */
  lemma {:induction false} KeysKept(s: State, steps: seq<Step>)
    requires AllInternal(steps)
    ensures Run(s, steps).subs.Keys == s.subs.Keys
  {
    if steps != [] {
      KeysKept(s, steps[..|steps| - 1]);
      assert Internal(steps[|steps| - 1]);
      hide Matched, Run;
    }
  }

  lemma {:induction false} NextSends(s: State) returns (steps: seq<Step>)
    requires Inv(s) && s.loop.Broadcasting? && s.loop.current.None? && Passable(s)
    ensures |steps| <= BroadcastBound(s.loop) && AllInternal(steps)
    ensures Ended(s, Run(s, steps))
    decreases |s.loop.todo|, 0
  {
    hide Inv, Apply, Run, SameUnsubs, Ended, Enabled, Passable;
    if s.loop.todo == {} {
      EndsNow(s);
      steps := [EndBroadcast];
    } else {
      var g :| g in s.loop.todo;
      var s1 := Apply(s, Pick(g));
      PickOne(s, g);
      StepKeepsInv(s, Pick(g));
      OneLess(s.loop, s1.loop, g);
      var rest := BroadcastEnds(s1);
      RunCons(s, Pick(g), rest);
      EndedAfter(s, s1, Run(s1, rest));
      steps := [Pick(g)] + rest;
    }
  }

  lemma {:induction false} EndsNow(s: State)
    requires Inv(s) && s.loop.Broadcasting? && s.loop.current.None? && s.loop.todo == {}
    ensures Ended(s, Run(s, [EndBroadcast]))
  {
    RunOne(s, EndBroadcast);
    StepKeepsInv(s, EndBroadcast);
  }

  lemma {:induction false} OneLess(loop: Loop, next: Loop, g: Id)
    requires loop.Broadcasting? && loop.current.None? && g in loop.todo && next.Broadcasting?
             && next.todo == loop.todo - {g}
    ensures |next.todo| < |loop.todo| && 1 + BroadcastBound(next) <= BroadcastBound(loop)
  {
    assert |next.todo| == |loop.todo| - 1;
  }

  lemma {:induction false} ReadyUnsubscribe(s: State, id: Id)
    requires Inv(s) && id in s.subs && s.loop.Ready? && s.subs[id].unsub.Draining?
    ensures var s' := Run(s, [Uninstall(id), SeeErr(id)]);
            id in s'.subs && s'.subs[id].unsub.Returned?
  {
    hide Inv, Run;
    var taken := Apply(s, Uninstall(id));
    assert id in taken.subs && taken.subs[id].unsub.AwaitingErr? && taken.subs[id].errCloses > 0;
    RunOne(s, Uninstall(id));
    RunSplit(s, [Uninstall(id)], [SeeErr(id)]);
    RunOne(taken, SeeErr(id));
    assert [Uninstall(id)] + [SeeErr(id)] == [Uninstall(id), SeeErr(id)];
  }

  function UnsubscribeBound(loop: Loop): nat {
    (if loop.Broadcasting? then BroadcastBound(loop) else 0) + 2
  }

  /** Unsubscribe progress: while the loop runs and the broadcast in progress does not wait for a mutex that
      is held, a pending Unsubscribe can finish within a bounded number of internal steps. */
  lemma {:induction false} UnsubscribeFinishes(s: State, id: Id) returns (steps: seq<Step>)
    requires Inv(s) && Passable(s) && !s.loop.Stopped? && id in s.subs && s.subs[id].unsub.Draining?
    ensures |steps| <= UnsubscribeBound(s.loop) && AllInternal(steps)
    ensures id in Run(s, steps).subs && Run(s, steps).subs[id].unsub.Returned?
  {
    hide Inv, Run, Passable;
    var tail := [Uninstall(id), SeeErr(id)];
    if s.loop.Broadcasting? {
      var first := BroadcastEnds(s);
      var mid := Run(s, first);
      ReadyUnsubscribe(mid, id);
      RunSplit(s, first, tail);
      steps := first + tail;
    } else {
      ReadyUnsubscribe(s, id);
      steps := tail;
    }
  }

  lemma {:induction false} StoppedStep(s: State, st: Step, id: Id)
    requires s.loop.Stopped? && id in s.subs && s.subs[id].unsub.Draining?
    ensures var s' := Apply(s, st);
            s'.loop.Stopped? && id in s'.subs && s'.subs[id].unsub.Draining?
  {
  }

  lemma {:induction false} StoppedForever(s: State, steps: seq<Step>, id: Id)
    requires s.loop.Stopped? && id in s.subs && s.subs[id].unsub.Draining?
    ensures var s' := Run(s, steps);
            s'.loop.Stopped? && id in s'.subs && s'.subs[id].unsub.Draining?
  {
    if steps != [] {
      StoppedForever(s, steps[..|steps| - 1], id);
      hide Apply;
      StoppedStep(Run(s, steps[..|steps| - 1]), steps[|steps| - 1], id);
    }
  }

  predicate SweepStep(st: Step) {
    st.SweepStart? || st.SweepTake? || st.SweepDone? || st.SweepEnd?
  }

  /** Without the timeout sweep, filtersMu is never held across steps. */
  lemma {:induction false} LockFreeRuns(steps: seq<Step>)
    requires forall i :: 0 <= i < |steps| ==> !SweepStep(steps[i])
    ensures Run(INIT, steps).mutex.Free?
  {
    if steps != [] {
      LockFreeRuns(steps[..|steps| - 1]);
      assert !SweepStep(steps[|steps| - 1]);
    }
  }

  /** In every run without the sweep, whoever waits inside Unsubscribe can return unless the loop has stopped
      before taking the request. */
  lemma {:induction false} UnsubscribeProgress(done: seq<Step>, id: Id) returns (steps: seq<Step>)
    requires forall i :: 0 <= i < |done| ==> !SweepStep(done[i])
    requires var s := Run(INIT, done);
             && id in s.subs && (s.subs[id].unsub.Draining? || s.subs[id].unsub.AwaitingErr?)
             && (s.subs[id].unsub.Draining? ==> !s.loop.Stopped?)
    ensures AllInternal(steps) && |steps| <= UnsubscribeBound(Run(INIT, done).loop)
    ensures var s' := Run(Run(INIT, done), steps);
            id in s'.subs && s'.subs[id].unsub.Returned?
  {
    var s := Run(INIT, done);
    InitInv();
    RunKeepsInv(INIT, done);
    LockFreeRuns(done);
    if s.subs[id].unsub.Draining? {
      hide Run, Inv;
      steps := UnsubscribeFinishes(s, id);
    } else {
      assert SubInvIn(s, id);
      steps := [SeeErr(id)];
      RunOne(s, SeeErr(id));
    }
  }

  // ---------------------------------------------------------------- the sweep that holds the mutex

  /** The sweep waits, holding filtersMu, for the loop to take its uninstall request; the loop has to send to
      g before it can; and g needs filtersMu before it can receive. */
  ghost predicate Deadlocked(s: State, g: Id) {
    && Stalls(s, g) && s.mutex.Sweep? && s.mutex.victim.Some?
    && var f := s.mutex.victim.value;
       f in s.subs && s.subs[f].unsub.Draining?
  }

  lemma {:induction false} DeadlockedStep(s: State, st: Step, g: Id)
    requires Inv(s) && Deadlocked(s, g)
    ensures Deadlocked(Apply(s, st), g)
    ensures BlockedOn(s, g) ==> BlockedOn(Apply(s, st), g)
    ensures StillDraining(s, Apply(s, st))
  {
    hide Matched, Inv;
    BusyKeepsDraining(s, st);
    WaitsFor(s, g);
  }

  /** Who needs the lock cannot receive. */
  lemma {:induction false} WaitsFor(s: State, g: Id)
    requires Inv(s) && g in s.subs && NeedsLock(s.subs[g])
    ensures !s.subs[g].reader.Receiving? && (s.subs[g].reader.Holding? ==> s.subs[g].creator.Done?)
  {
    assert SubInvIn(s, g);
    hide Conserved;
  }

  /** While the loop is broadcasting it takes no uninstall request. */
  lemma {:induction false} BusyKeepsDraining(s: State, st: Step)
    requires s.loop.Broadcasting?
    ensures StillDraining(s, Apply(s, st))
  {
    hide Matched;
  }

  ghost predicate StillDraining(s: State, s': State) {
    forall x :: x in s.subs && s.subs[x].unsub.Draining? ==> x in s'.subs && s'.subs[x].unsub.Draining?
  }

  lemma {:induction false} DeadlockedForever(s: State, steps: seq<Step>, g: Id)
    requires Inv(s) && Deadlocked(s, g)
    ensures var s' := Run(s, steps);
            Deadlocked(s', g) && (BlockedOn(s, g) ==> BlockedOn(s', g)) && StillDraining(s, s')
  {
    if steps != [] {
      DeadlockedForever(s, steps[..|steps| - 1], g);
      RunKeepsInv(s, steps[..|steps| - 1]);
      hide Apply, Deadlocked, Inv, BlockedOn;
      DeadlockedStep(Run(s, steps[..|steps| - 1]), steps[|steps| - 1], g);
    }
  }

  /** Letting the sweep release filtersMu when its victim's err channel is already closed. */
  lemma {:induction false} SweepReleases(s: State) returns (steps: seq<Step>)
    requires Inv(s) && s.mutex.Sweep?
    requires s.mutex.victim.Some? ==> !s.subs[s.mutex.victim.value].unsub.Draining?
    ensures var s' := Run(s, steps);
            Inv(s') && s'.mutex.Free? && s'.loop == s.loop && StillDraining(s, s')
    decreases if s.mutex.victim.None? then 0 else if s.subs[s.mutex.victim.value].unsub.Returned? then 1 else 2
  {
    hide Matched, Conserved, Unsent;
    var st := SweepEnd;
    if s.mutex.victim.Some? {
      var f := s.mutex.victim.value;
      assert SubInvIn(s, f);
      st := if s.subs[f].unsub.Returned? then SweepDone(f) else SeeErr(f);
    }
    StepKeepsInv(s, st);
    var s1 := Apply(s, st);
    assert StillDraining(s, s1);
    if s1.mutex.Free? {
      RunOne(s, st);
      steps := [st];
    } else {
      var rest := SweepReleases(s1);
      RunCons(s, st, rest);
      steps := [st] + rest;
    }
  }

  lemma {:induction false} NotDeadlockedMoves(s: State, g: Id) returns (steps: seq<Step>)
    requires Inv(s) && BlockedOn(s, g) && !Deadlocked(s, g)
    ensures !BlockedOn(Run(s, steps), g)
  {
    var sub := s.subs[g];
    if sub.unsub.Draining? || s.mutex.Free? || !NeedsLock(sub) {
      steps := SendCompletes(s, g);
    } else {
      var first := SweepReleases(s);
      hide Inv;
      var rest := SendCompletes(Run(s, first), g);
      RunSplit(s, first, rest);
      steps := first + rest;
    }
  }

  /** A blocked broadcast stays blocked in every continuation exactly in the deadlock of the sweep; without a
      sweep there is no such state. */
  lemma {:induction false} StuckExactlyWhenDeadlocked(s: State, g: Id)
    requires Inv(s) && BlockedOn(s, g)
    ensures (forall steps: seq<Step> :: BlockedOn(Run(s, steps), g)) <==> Deadlocked(s, g)
    ensures s.mutex.Free? ==> !Deadlocked(s, g)
  {
    if Deadlocked(s, g) {
      forall steps: seq<Step>
        ensures BlockedOn(Run(s, steps), g)
      {
        DeadlockedForever(s, steps, g);
      }
    } else {
      var steps := NotDeadlockedMoves(s, g);
    }
  }

  ghost predicate CanReturn(s: State, id: Id) {
    exists steps: seq<Step> :: id in Run(s, steps).subs && Run(s, steps).subs[id].unsub.Returned?
  }

  /** A pending Unsubscribe, whatever state the system is in, can return if and only if its err channel is
      closed already, or the event loop has not stopped and is not deadlocked with the sweep. */
  lemma {:induction false} UnsubscribeFinishesIff(s: State, id: Id)
    requires Inv(s) && id in s.subs && (s.subs[id].unsub.Draining? || s.subs[id].unsub.AwaitingErr?)
    ensures CanReturn(s, id)
            <==> s.subs[id].unsub.AwaitingErr? || (!s.loop.Stopped? && forall g :: !Deadlocked(s, g))
  {
    hide Inv, Deadlocked;
    if s.subs[id].unsub.AwaitingErr? {
      SeesErr(s, id);
    } else if s.loop.Stopped? {
      forall steps: seq<Step>
        ensures id in Run(s, steps).subs && !Run(s, steps).subs[id].unsub.Returned?
      {
        StoppedForever(s, steps, id);
      }
    } else if g :| Deadlocked(s, g) {
      forall steps: seq<Step>
        ensures id in Run(s, steps).subs && !Run(s, steps).subs[id].unsub.Returned?
      {
        DeadlockedForever(s, steps, g);
      }
    } else {
      var steps := NotDeadlockedReturns(s, id);
    }
  }

  lemma {:induction false} SeesErr(s: State, id: Id)
    requires Inv(s) && id in s.subs && s.subs[id].unsub.AwaitingErr?
    ensures CanReturn(s, id)
  {
    assert SubInvIn(s, id);
    RunOne(s, SeeErr(id));
    hide SubInv;
    assert Run(s, [SeeErr(id)]).subs[id].unsub.Returned?;
  }

  lemma {:induction false} NotDeadlockedReturns(s: State, id: Id) returns (steps: seq<Step>)
    requires Inv(s) && id in s.subs && s.subs[id].unsub.Draining? && !s.loop.Stopped? && forall g :: !Deadlocked(s, g)
    ensures id in Run(s, steps).subs && Run(s, steps).subs[id].unsub.Returned?
  {
    hide Inv, Run, Stalls;
    if Passable(s) {
      steps := UnsubscribeFinishes(s, id);
    } else {
      VictimKnown(s);
      var g :| Stalls(s, g);
      assert !Deadlocked(s, g);
      var first := SweepReleases(s);
      var rest := UnsubscribeFinishes(Run(s, first), id);
      RunSplit(s, first, rest);
      steps := first + rest;
    }
  }

  lemma {:induction false} VictimKnown(s: State)
    requires Inv(s)
    ensures s.mutex.Sweep? && s.mutex.victim.Some? ==> s.mutex.victim.value in s.subs
  {
  }

  // ---------------------------------------------------------------- a run into the deadlock

  const HEAD: Event := ChainEvent([])
  const IDLE: Sub := Sub(HeadKind, true, Done, Receiving, NotCalled, Some([]), 1, 0, [], [])

  lemma {:induction false} NewBlockFilter(s: State, id: Id) returns (steps: seq<Step>)
    requires s.loop.Ready? && s.mutex.Free? && id !in s.subs
    ensures Run(s, steps) == State(s.subs[id := IDLE], s.index + {id}, Ready, Free)
  {
    steps := [Create(id, HeadKind, true), Install(id), SeeInstalled(id), Register(id), Spawn(id)];
    var sub := Sub(HeadKind, true, Sending, NotStarted, NotCalled, None, 0, 0, [], []);
    var s1 := Put(s, id, sub);
    assert Apply(s, steps[0]) == s1;
    var s2 := Put(s1, id, sub.(creator := Waiting, installedCloses := 1)).(index := s.index + {id});
    assert Apply(s1, steps[1]) == s2;
    var s3 := Put(s2, id, s2.subs[id].(creator := Registering));
    assert Apply(s2, steps[2]) == s3;
    var s4 := Put(s3, id, s3.subs[id].(creator := Spawning, buffer := Some([])));
    assert Apply(s3, steps[3]) == s4;
    var s5 := Put(s4, id, IDLE);
    assert Apply(s4, steps[4]) == s5;
    assert s5.subs == s.subs[id := IDLE];
    hide Apply;
    Five(s, steps);
  }

  /** Two block filters: both take a header and wait for filtersMu, the sweep takes the mutex and starts to
      unsubscribe filter 1, and the next header blocks on filter 0. */
  lemma {:induction false} DeadlockReachable() returns (steps: seq<Step>)
    ensures Deadlocked(Run(INIT, steps), 0)
  {
    var first := NewBlockFilter(INIT, 0);
    var a := Run(INIT, first);
    var second := NewBlockFilter(a, 1);
    var b := Run(a, second);
    var third := BothHold(b);
    var c := Run(b, third);
    var fourth := SweepBlocks(c);
    hide Run, Apply;
    RunSplit(INIT, first, second);
    RunSplit(INIT, first + second, third);
    RunSplit(INIT, first + second + third, fourth);
    steps := first + second + third + fourth;
  }

  lemma {:induction false} BothHold(s: State) returns (steps: seq<Step>)
    requires s.subs == map[0 := IDLE, 1 := IDLE] && s.index == {0, 1} && s.loop.Ready? && s.mutex.Free?
    ensures var s' := Run(s, steps);
            && s'.loop.Ready? && s'.mutex.Free? && s'.index == {0, 1} && s'.subs.Keys == {0, 1}
            && (forall x :: x in {0, 1} ==> s'.subs[x] == IDLE.(handled := [HEAD], reader := Holding([HashItem([])])))
  {
    steps := [Arrive(HEAD), Pick(0), Deliver(0), Pick(1), Deliver(1), EndBroadcast];
    var s2 := FirstPicked(s);
    var s4 := SecondPicked(s2);
    var holds := IDLE.(handled := [HEAD], reader := Holding([HashItem([])]));
    var s5 := Apply(s4, Deliver(1));
    assert s5 == s2.(subs := map[0 := holds, 1 := holds], loop := Broadcasting(HEAD, {}, None));
    var s6 := Apply(s5, EndBroadcast);
    assert s6 == s5.(loop := Ready);
    hide Apply;
    Six(s, steps);
  }

  lemma {:induction false} FirstPicked(s: State) returns (s2: State)
    requires s.subs == map[0 := IDLE, 1 := IDLE] && s.index == {0, 1} && s.loop.Ready? && s.mutex.Free?
    ensures s2 == Apply(Apply(s, Arrive(HEAD)), Pick(0))
    ensures var heard := IDLE.(handled := [HEAD]);
            s2 == State(map[0 := heard, 1 := heard], {0, 1}, Broadcasting(HEAD, {1}, Some(0)), Free)
  {
    var heard := IDLE.(handled := [HEAD]);
    var s1 := Apply(s, Arrive(HEAD));
    assert IDLE.handled + [HEAD] == [HEAD];
    assert s1.subs == map[0 := heard, 1 := heard] && s1.loop.todo == {0, 1};
    s2 := Apply(s1, Pick(0));
    assert s2.loop.todo == {1};
  }

  lemma {:induction false} SecondPicked(s2: State) returns (s4: State)
    requires var heard := IDLE.(handled := [HEAD]);
             s2 == State(map[0 := heard, 1 := heard], {0, 1}, Broadcasting(HEAD, {1}, Some(0)), Free)
    ensures s4 == Apply(Apply(s2, Deliver(0)), Pick(1))
    ensures var heard := IDLE.(handled := [HEAD]);
            s4 == s2.(subs := map[0 := heard.(reader := Holding([HashItem([])])), 1 := heard],
                      loop := Broadcasting(HEAD, {}, Some(1)))
  {
    var heard := IDLE.(handled := [HEAD]);
    var s3 := Apply(s2, Deliver(0));
    assert s3 == s2.(subs := map[0 := heard.(reader := Holding([HashItem([])])), 1 := heard],
                     loop := Broadcasting(HEAD, {1}, None));
    s4 := Apply(s3, Pick(1));
    assert s4.loop.todo == {};
  }

  lemma {:induction false} Six(s: State, steps: seq<Step>)
    requires |steps| == 6
    ensures Run(s, steps)
            == Apply(Apply(Apply(Apply(Apply(Apply(s, steps[0]), steps[1]), steps[2]), steps[3]), steps[4]), steps[5])
  {
    hide Apply;
    var front := steps[..5];
    Five(s, front);
  }

  lemma {:induction false} Five(s: State, steps: seq<Step>)
    requires |steps| == 5
    ensures Run(s, steps) == Apply(Apply(Apply(Apply(Apply(s, steps[0]), steps[1]), steps[2]), steps[3]), steps[4])
  {
    hide Apply;
    Four(s, steps[..4]);
  }

  lemma {:induction false} Four(s: State, steps: seq<Step>)
    requires |steps| == 4
    ensures Run(s, steps) == Apply(Apply(Apply(Apply(s, steps[0]), steps[1]), steps[2]), steps[3])
  {
    hide Apply;
    var three := steps[..3];
    var two, one := three[..2], three[..2][..1];
    assert one[..0] == [] && Run(s, []) == s;
    assert Run(s, one) == Apply(s, steps[0]);
    assert Run(s, two) == Apply(Run(s, one), steps[1]);
    assert Run(s, three) == Apply(Run(s, two), steps[2]);
  }

  lemma {:induction false} SweepBlocks(s: State) returns (steps: seq<Step>)
    requires s.loop.Ready? && s.mutex.Free? && s.index == {0, 1} && s.subs.Keys == {0, 1}
    requires forall x :: x in {0, 1} ==> s.subs[x] == IDLE.(handled := [HEAD], reader := Holding([HashItem([])]))
    ensures Deadlocked(Run(s, steps), 0)
  {
    steps := [SweepStart, SweepTake(1), Arrive(HEAD), Pick(0)];
    var s1 := Apply(s, steps[0]);
    var s2 := Apply(s1, steps[1]);
    assert s2.mutex == Sweep(Some(1)) && s2.subs[1].unsub.Draining? && s2.loop.Ready?;
    var s3 := Apply(s2, steps[2]);
    assert 0 in s3.loop.todo && s3.subs[1].unsub.Draining? && s3.subs[0].reader.Holding?;
    var s4 := Apply(s3, steps[3]);
    assert Deadlocked(s4, 0);
    hide Apply;
    Four(s, steps);
  }
}
