/** The event loop, its subscriptions and the polling filters as interleaved steps
    (rpc/api/filters/geth_filter_system.go, rpc/api/filters/filter_api.go).

    Every step is one rendezvous on an unbuffered channel, one closing of a channel, one critical section of
    filtersMu, or one local move of the event loop. The timeout sweep is the one caller that keeps
    filtersMu across steps. */
module EventSystem {
  import opened Bytes
  import opened ChainTypes
  import opened Filters

  type Id = nat

  datatype Kind =
    | LogKind(from: Option<int>, to: Option<int>, addresses: seq<seq<byte>>, topics: seq<seq<Hash>>)
    | HeadKind

  datatype Event = LogsEvent(logs: seq<Log>) | RemovedLogsEvent(logs: seq<Log>) | ChainEvent(header: Hash)

  datatype Item = LogItem(log: Log) | HashItem(hash: Hash)

  /** What the subscriber's creator does: send on install, wait for installed, add the filter entry (polling
      filters only), start the reading goroutine. */
  datatype Creator = Sending | Waiting | Registering | Spawning | Done

  datatype Reader = NotStarted | Receiving | Holding(batch: seq<Item>) | Exited

  datatype Unsubscriber = NotCalled | Draining | AwaitingErr | Returned

  /** buffer is the entry in api.filters; delivered is all that GetFilterChanges has returned or the notifier
      has been given; handled is every event the loop has taken up since the subscription was installed. */
  datatype Sub = Sub(
    kind: Kind, polling: bool,
    creator: Creator, reader: Reader, unsub: Unsubscriber, buffer: Option<seq<Item>>,
    installedCloses: nat, errCloses: nat,
    handled: seq<Event>, delivered: seq<Item>)

  /** While broadcasting, current is the subscription the loop is blocked sending to. */
  datatype Loop = Ready | Broadcasting(event: Event, todo: set<Id>, current: Option<Id>) | Stopped

  /** Sweep: timeoutLoop holds filtersMu, inside Unsubscribe of the given filter if there is one. */
  datatype Mutex = Free | Sweep(victim: Option<Id>)

  datatype State = State(subs: map<Id, Sub>, index: set<Id>, loop: Loop, mutex: Mutex)

  const INIT: State := State(map[], {}, Ready, Free)

  datatype Step =
    | Create(id: Id, kind: Kind, polling: bool)
    | Install(id: Id)
    | SeeInstalled(id: Id)
    | Register(id: Id)
    | Spawn(id: Id)
    | Arrive(event: Event)
    | Pick(id: Id)
    | Deliver(id: Id)
    | Drain(id: Id)
    | EndBroadcast
    | Append(id: Id)
    | Notify(id: Id)
    | Poll(id: Id)
    | UninstallFilter(id: Id)
    | StopNotifying(id: Id)
    | Uninstall(id: Id)
    | SeeErr(id: Id)
    | ReaderExit(id: Id)
    | SweepStart
    | SweepTake(id: Id)
    | SweepDone(id: Id)
    | SweepEnd
    | Stop

  function Items(logs: seq<Log>): (r: seq<Item>)
    ensures |r| == |logs|
  {
    seq(|logs|, i requires 0 <= i < |logs| => LogItem(logs[i]))
  }

  /** What one event has for a subscription. */
  function Matched(kind: Kind, e: Event): seq<Item> {
    match kind
    case LogKind(from, to, addresses, topics) =>
      if e.ChainEvent? then [] else Items(MatchLogs(Bounded(e.logs, from, to), addresses, topics))
    case HeadKind =>
      if e.ChainEvent? then [HashItem(e.header)] else []
  }

  /** Whether handling the event looks at subscriptions of this kind at all. */
  predicate Concerns(kind: Kind, e: Event) {
    if kind.HeadKind? then e.ChainEvent? else !e.ChainEvent? && !(e.LogsEvent? && e.logs == [])
  }

  predicate Is(s: State, id: Id) {
    id in s.subs
  }

  predicate Enabled(s: State, st: Step) {
    match st
    case Create(id, _, _) => id !in s.subs
    case Install(id) => Is(s, id) && s.loop.Ready? && s.subs[id].creator.Sending?
    case SeeInstalled(id) => Is(s, id) && s.subs[id].creator.Waiting? && s.subs[id].installedCloses > 0
    case Register(id) => Is(s, id) && s.subs[id].creator.Registering? && s.mutex.Free?
    case Spawn(id) => Is(s, id) && s.subs[id].creator.Spawning?
    case Arrive(_) => s.loop.Ready?
    case Pick(id) => Is(s, id) && s.loop.Broadcasting? && s.loop.current.None? && id in s.loop.todo
    case Deliver(id) => Is(s, id) && s.loop.Broadcasting? && s.loop.current == Some(id) && s.subs[id].reader.Receiving?
    case Drain(id) => Is(s, id) && s.loop.Broadcasting? && s.loop.current == Some(id) && s.subs[id].unsub.Draining?
    case EndBroadcast => s.loop.Broadcasting? && s.loop.current.None? && s.loop.todo == {}
    case Append(id) => Is(s, id) && s.subs[id].polling && s.subs[id].reader.Holding? && s.mutex.Free?
    case Notify(id) => Is(s, id) && !s.subs[id].polling && s.subs[id].reader.Holding?
    case Poll(id) => Is(s, id) && s.subs[id].buffer.Some? && s.mutex.Free?
    case UninstallFilter(id) => Is(s, id) && s.subs[id].buffer.Some? && s.mutex.Free?
    case StopNotifying(id) => Is(s, id) && !s.subs[id].polling && s.subs[id].reader.Receiving?
    case Uninstall(id) => Is(s, id) && s.loop.Ready? && s.subs[id].unsub.Draining?
    case SeeErr(id) => Is(s, id) && s.subs[id].unsub.AwaitingErr? && s.subs[id].errCloses > 0
    case ReaderExit(id) =>
      Is(s, id) && s.subs[id].polling && s.subs[id].reader.Receiving? && s.subs[id].errCloses > 0 && s.mutex.Free?
    case SweepStart => s.mutex.Free?
    case SweepTake(id) => Is(s, id) && s.mutex == Sweep(None) && s.subs[id].buffer.Some?
    case SweepDone(id) => Is(s, id) && s.mutex == Sweep(Some(id)) && s.subs[id].unsub.Returned?
    case SweepEnd => s.mutex == Sweep(None)
    case Stop => s.loop.Ready?
  }

  function Put(s: State, id: Id, sub: Sub): State {
    s.(subs := s.subs[id := sub])
  }

  /** The effect of an enabled step. */
  function Effect(s: State, st: Step): State
    requires Enabled(s, st)
  {
    match st
    case Create(id, kind, polling) => Put(s, id, Sub(kind, polling, Sending, NotStarted, NotCalled, None, 0, 0, [], []))
    case Install(id) =>
      var sub := s.subs[id];
      Put(s, id, sub.(creator := Waiting, installedCloses := sub.installedCloses + 1)).(index := s.index + {id})
    case SeeInstalled(id) =>
      var sub := s.subs[id];
      Put(s, id, sub.(creator := if sub.polling then Registering else Spawning))
    case Register(id) => Put(s, id, s.subs[id].(creator := Spawning, buffer := Some([])))
    case Spawn(id) => Put(s, id, s.subs[id].(creator := Done, reader := Receiving))
    case Arrive(e) =>
      s.(subs := map id | id in s.subs ::
                   if id in s.index then s.subs[id].(handled := s.subs[id].handled + [e]) else s.subs[id],
         loop := Broadcasting(e, (set id | id in s.index && id in s.subs && Concerns(s.subs[id].kind, e)), None))
    case Pick(id) =>
      s.(loop := s.loop.(todo := s.loop.todo - {id},
                         current := if Matched(s.subs[id].kind, s.loop.event) == [] then None else Some(id)))
    case Deliver(id) =>
      var batch := Matched(s.subs[id].kind, s.loop.event);
      Put(s, id, s.subs[id].(reader := Holding(batch))).(loop := s.loop.(current := None))
    case Drain(_) => s.(loop := s.loop.(current := None))
    case EndBroadcast => s.(loop := Ready)
    case Append(id) =>
      var sub := s.subs[id];
      var buffer := if sub.buffer.Some? then Some(sub.buffer.value + sub.reader.batch) else None;
      Put(s, id, sub.(reader := Receiving, buffer := buffer))
    case Notify(id) =>
      var sub := s.subs[id];
      Put(s, id, sub.(reader := Receiving, delivered := sub.delivered + sub.reader.batch))
    case Poll(id) =>
      var sub := s.subs[id];
      Put(s, id, sub.(delivered := sub.delivered + sub.buffer.value, buffer := Some([])))
    case UninstallFilter(id) =>
      Put(s, id, s.subs[id].(buffer := None, unsub := Draining))
    case StopNotifying(id) => Put(s, id, s.subs[id].(reader := Exited, unsub := Draining))
    case Uninstall(id) =>
      var sub := s.subs[id];
      Put(s, id, sub.(unsub := AwaitingErr, errCloses := sub.errCloses + 1)).(index := s.index - {id})
    case SeeErr(id) => Put(s, id, s.subs[id].(unsub := Returned))
    case ReaderExit(id) => Put(s, id, s.subs[id].(reader := Exited, buffer := None))
    case SweepStart => s.(mutex := Sweep(None))
    case SweepTake(id) => Put(s, id, s.subs[id].(unsub := Draining)).(mutex := Sweep(Some(id)))
    case SweepDone(id) => Put(s, id, s.subs[id].(buffer := None)).(mutex := Sweep(None))
    case SweepEnd => s.(mutex := Free)
    case Stop => s.(loop := Stopped)
  }

  function Apply(s: State, st: Step): State {
    if Enabled(s, st) then Effect(s, st) else s
  }

  function Run(s: State, steps: seq<Step>): State {
    if steps == [] then s else Apply(Run(s, steps[..|steps| - 1]), steps[|steps| - 1])
  }

  // ---------------------------------------------------------------- invariant

  /** All that the handled events have for a subscription. */
  function AllMatched(kind: Kind, events: seq<Event>): seq<Item> {
    if events == [] then [] else AllMatched(kind, events[..|events| - 1]) + Matched(kind, events[|events| - 1])
  }

  function Buffered(sub: Sub): seq<Item> {
    if sub.buffer.Some? then sub.buffer.value else []
  }

  function InHand(sub: Sub): seq<Item> {
    if sub.reader.Holding? then sub.reader.batch else []
  }

  /** What the event in progress still has for subscription id. */
  function Unsent(loop: Loop, id: Id, kind: Kind): seq<Item> {
    if loop.Broadcasting? && (id in loop.todo || loop.current == Some(id)) then Matched(kind, loop.event) else []
  }

  ghost predicate Conserved(sub: Sub, unsent: seq<Item>) {
    sub.delivered + Buffered(sub) + InHand(sub) + unsent == AllMatched(sub.kind, sub.handled)
  }

  ghost predicate SubInv(sub: Sub, indexed: bool, unsent: seq<Item>, swept: bool) {
    && sub.installedCloses == (if sub.creator.Sending? then 0 else 1)
    && sub.errCloses == (if sub.unsub.AwaitingErr? || sub.unsub.Returned? then 1 else 0)
    && (indexed <==> !sub.creator.Sending? && sub.errCloses == 0)
    && (sub.reader.NotStarted? <==> !sub.creator.Done?)
    && (sub.creator.Registering? ==> sub.polling)
    && (sub.buffer.Some? ==> sub.polling && (sub.creator.Spawning? || sub.creator.Done?))
    && (sub.unsub.NotCalled? && sub.polling && (sub.creator.Spawning? || sub.creator.Done?) ==> sub.buffer.Some?)
    && (!sub.unsub.NotCalled? ==> sub.creator.Spawning? || sub.creator.Done?)
    && (!sub.unsub.NotCalled? && sub.buffer.Some? ==> swept)
    && (swept ==> !sub.unsub.NotCalled? && sub.buffer.Some?)
    && (sub.reader.Exited? && sub.polling ==> sub.errCloses == 1)
    && (!sub.polling ==> (sub.reader.Exited? <==> !sub.unsub.NotCalled?))
    && (sub.unsub.NotCalled? ==> Conserved(sub, unsent))
  }

  ghost predicate LoopInv(s: State) {
    && s.index <= s.subs.Keys
    && (s.loop.Broadcasting? ==>
          && s.loop.todo <= s.index
          && (s.loop.current.Some? ==> s.loop.current.value in s.index && s.loop.current.value !in s.loop.todo))
    && (s.mutex.Sweep? && s.mutex.victim.Some? ==> s.mutex.victim.value in s.subs)
  }

  ghost predicate SubInvIn(s: State, id: Id)
    requires id in s.subs
  {
    SubInv(s.subs[id], id in s.index, Unsent(s.loop, id, s.subs[id].kind), s.mutex == Sweep(Some(id)))
  }

  ghost predicate Inv(s: State) {
    LoopInv(s) && forall id :: id in s.subs ==> SubInvIn(s, id)
  }

  // ---------------------------------------------------------------- every step keeps the invariant

  /** A step that rewrites one subscription and changes nothing the others depend on. */
  lemma {:induction false} OneChanged(s: State, s': State, id: Id)
    requires Inv(s) && LoopInv(s') && id in s'.subs && s'.subs.Keys == s.subs.Keys + {id} && SubInvIn(s', id)
    requires forall x :: x in s.subs && x != id ==>
               && s'.subs[x] == s.subs[x] && (x in s'.index <==> x in s.index)
               && Unsent(s'.loop, x, s.subs[x].kind) == Unsent(s.loop, x, s.subs[x].kind)
               && (s'.mutex == Sweep(Some(x)) <==> s.mutex == Sweep(Some(x)))
    ensures Inv(s')
  {
    forall x | x in s'.subs
      ensures SubInvIn(s', x)
    {
      if x != id {
        assert SubInvIn(s, x);
      }
    }
  }

  /** Steps of one subscription that move no item. */
  predicate Quiet(st: Step) {
    || st.SeeInstalled? || st.Register? || st.Spawn? || st.UninstallFilter? || st.StopNotifying? || st.SeeErr?
    || st.ReaderExit?
  }

  /** Steps of one subscription that move items towards the client. */
  predicate Carrying(st: Step) {
    st.Append? || st.Notify? || st.Poll?
  }

  lemma {:induction false} QuietKeepsInv(s: State, st: Step)
    requires Inv(s) && Enabled(s, st) && Quiet(st)
    ensures Inv(Effect(s, st))
  {
    hide SubInv, Unsent, Matched;
    assert SubInvIn(s, st.id);
    QuietSub(s, st);
    OneChanged(s, Effect(s, st), st.id);
  }

  lemma {:induction false} QuietSub(s: State, st: Step)
    requires LoopInv(s) && Enabled(s, st) && Quiet(st) && SubInvIn(s, st.id)
    ensures SubInvIn(Effect(s, st), st.id) && LoopInv(Effect(s, st))
  {
    hide AllMatched, Matched, Unsent;
  }

  lemma {:induction false} CarryingKeepsInv(s: State, st: Step)
    requires Inv(s) && Enabled(s, st) && Carrying(st)
    ensures Inv(Effect(s, st))
  {
    hide SubInv, Unsent, Matched;
    assert SubInvIn(s, st.id);
    CarryingSub(s, st);
    OneChanged(s, Effect(s, st), st.id);
  }

  lemma {:induction false} CarryingSub(s: State, st: Step)
    requires LoopInv(s) && Enabled(s, st) && Carrying(st) && SubInvIn(s, st.id)
    ensures SubInvIn(Effect(s, st), st.id) && LoopInv(Effect(s, st))
  {
    hide AllMatched, Matched, Unsent;
    var sub, sub' := s.subs[st.id], Effect(s, st).subs[st.id];
    if sub.unsub.NotCalled? {
      assert sub'.delivered + Buffered(sub') + InHand(sub') == sub.delivered + Buffered(sub) + InHand(sub);
    }
  }

  lemma {:induction false} CreateKeepsInv(s: State, st: Step)
    requires Inv(s) && Enabled(s, st) && st.Create?
    ensures Inv(Effect(s, st))
  {
    hide Matched;
    OneChanged(s, Effect(s, st), st.id);
  }

  lemma {:induction false} IndexKeepsInv(s: State, st: Step)
    requires Inv(s) && Enabled(s, st) && (st.Install? || st.Uninstall?)
    ensures Inv(Effect(s, st))
  {
    assert SubInvIn(s, st.id);
    hide AllMatched, Matched;
    OneChanged(s, Effect(s, st), st.id);
  }

  lemma {:induction false} SendKeepsInv(s: State, st: Step)
    requires Inv(s) && Enabled(s, st) && (st.Pick? || st.Deliver? || st.Drain?)
    ensures Inv(Effect(s, st))
  {
    assert SubInvIn(s, st.id);
    SendSub(s, st);
    hide SubInv, Matched;
    OneChanged(s, Effect(s, st), st.id);
  }

  lemma {:induction false} SendSub(s: State, st: Step)
    requires LoopInv(s) && Enabled(s, st) && (st.Pick? || st.Deliver? || st.Drain?) && SubInvIn(s, st.id)
    ensures SubInvIn(Effect(s, st), st.id) && LoopInv(Effect(s, st))
  {
    hide AllMatched, Matched;
  }

  lemma {:induction false} SweepKeepsInv(s: State, st: Step)
    requires Inv(s) && Enabled(s, st) && (st.SweepTake? || st.SweepDone?)
    ensures Inv(Effect(s, st))
  {
    assert SubInvIn(s, st.id);
    hide AllMatched, Matched;
    OneChanged(s, Effect(s, st), st.id);
  }

  lemma {:induction false} GlobalKeepsInv(s: State, st: Step)
    requires Inv(s) && Enabled(s, st) && (st.EndBroadcast? || st.SweepStart? || st.SweepEnd? || st.Stop?)
    ensures Inv(Effect(s, st))
  {
    var s' := Effect(s, st);
    hide AllMatched, Matched;
    forall x | x in s'.subs
      ensures SubInvIn(s', x)
    {
      assert SubInvIn(s, x);
    }
  }

  lemma ConcernsMatched(kind: Kind, e: Event)
    ensures !Concerns(kind, e) ==> Matched(kind, e) == []
  {
  }

  lemma {:induction false} HandledMore(sub: Sub, e: Event)
    ensures AllMatched(sub.kind, sub.handled + [e]) == AllMatched(sub.kind, sub.handled) + Matched(sub.kind, e)
  {
    assert (sub.handled + [e])[..|sub.handled|] == sub.handled;
  }

  lemma {:induction false} ArriveKeepsInv(s: State, e: Event)
    requires Inv(s) && s.loop.Ready?
    ensures Inv(Effect(s, Arrive(e)))
  {
    var s' := Effect(s, Arrive(e));
    forall x | x in s'.subs
      ensures SubInvIn(s', x)
    {
      ArriveConserves(s, x, e);
    }
  }

  lemma {:induction false} ArriveConserves(s: State, x: Id, e: Event)
    requires Inv(s) && s.loop.Ready? && x in s.subs
    ensures SubInvIn(Effect(s, Arrive(e)), x)
  {
    assert SubInvIn(s, x);
    var sub, s' := s.subs[x], Effect(s, Arrive(e));
    var sub' := s'.subs[x];
    ConcernsMatched(sub.kind, e);
    HandledMore(sub, e);
    hide AllMatched, Matched, Concerns, Inv;
    assert Unsent(s.loop, x, sub.kind) == [];
    if x in s.index {
      assert sub' == sub.(handled := sub.handled + [e]);
      assert Unsent(s'.loop, x, sub.kind) == Matched(sub.kind, e);
    } else {
      assert sub' == sub && Unsent(s'.loop, x, sub.kind) == [];
    }
    hide Effect, Unsent;
    if sub.unsub.NotCalled? {
      assert sub.delivered + Buffered(sub) + InHand(sub) + [] == sub.delivered + Buffered(sub) + InHand(sub);
      assert Conserved(sub', Unsent(s'.loop, x, sub.kind));
    }
  }

  lemma {:induction false} StepKeepsInv(s: State, st: Step)
    requires Inv(s)
    ensures Inv(Apply(s, st))
  {
    if Enabled(s, st) {
      if Quiet(st) {
        QuietKeepsInv(s, st);
      } else if Carrying(st) {
        CarryingKeepsInv(s, st);
      } else if st.Create? {
        CreateKeepsInv(s, st);
      } else if st.Install? || st.Uninstall? {
        IndexKeepsInv(s, st);
      } else if st.Pick? || st.Deliver? || st.Drain? {
        SendKeepsInv(s, st);
      } else if st.SweepTake? || st.SweepDone? {
        SweepKeepsInv(s, st);
      } else if st.Arrive? {
        ArriveKeepsInv(s, st.event);
      } else {
        GlobalKeepsInv(s, st);
      }
    }
  }

  lemma {:induction false} RunKeepsInv(s: State, steps: seq<Step>)
    requires Inv(s)
    ensures Inv(Run(s, steps))
  {
    if steps != [] {
      RunKeepsInv(s, steps[..|steps| - 1]);
      hide Inv, Apply;
      StepKeepsInv(Run(s, steps[..|steps| - 1]), steps[|steps| - 1]);
    }
  }
}
