/** Matching logs against criteria (rpc/api/filters/geth_filter.go). */
module Filters {
  import opened Bytes
  import opened ChainTypes

  /** Any of the addresses, and per position any of the listed topics; empty lists are wildcards. */
  predicate Matches(address: seq<byte>, topics: seq<Hash>, addresses: seq<seq<byte>>, wanted: seq<seq<Hash>>) {
    && (addresses == [] || address in addresses)
    && |wanted| <= |topics|
    && forall i :: 0 <= i < |wanted| ==> wanted[i] == [] || topics[i] in wanted[i]
  }

  /** What a client asks for: the address is listed unless none is, and for every position with a list, the log has a
      topic there and it is in the list; positions without a list still need a topic. */
  ghost predicate Selects(address: seq<byte>, topics: seq<Hash>, addresses: seq<seq<byte>>, wanted: seq<seq<Hash>>) {
    && (|addresses| == 0 || exists i :: 0 <= i < |addresses| && addresses[i] == address)
    && (forall i :: 0 <= i < |wanted| ==>
        i < |topics| && (|wanted[i]| == 0 || exists j :: 0 <= j < |wanted[i]| && wanted[i][j] == topics[i]))
  }

  method Includes(addresses: seq<seq<byte>>, a: seq<byte>) returns (found: bool)
    ensures found <==> a in addresses
  {
    for i := 0 to |addresses|
      invariant a !in addresses[..i]
    {
      if addresses[i] == a {
        return true;
      }
    }
    return false;
  }

  method FilterFunc(address: seq<byte>, topics: seq<Hash>, addresses: seq<seq<byte>>, wanted: seq<seq<Hash>>)
    returns (ok: bool)
    ensures ok <==> Matches(address, topics, addresses, wanted)
    ensures ok <==> Selects(address, topics, addresses, wanted)
  {
    SelectsIs(address, topics, addresses, wanted);
    hide Selects;
    if |addresses| > 0 {
      var found := Includes(addresses, address);
      if !found {
        return false;
      }
    }
    if |wanted| > |topics| {
      return false;
    }
    for i := 0 to |wanted|
      invariant forall k :: 0 <= k < i ==> wanted[k] == [] || topics[k] in wanted[k]
    {
      var sub := wanted[i];
      var matched := |sub| == 0;
      for j := 0 to |sub|
        invariant matched <==> sub == [] || topics[i] in sub[..j]
      {
        if topics[i] == sub[j] {
          matched := true;
          break;
        }
      }
      if !matched {
        assert sub[..|sub|] == sub;
        return false;
      }
    }
    return true;
  }

  /** A negative bound, like an absent one, bounds nothing. */
  predicate InBounds(number: int, from: Option<int>, to: Option<int>) {
    && (from.None? || from.value < 0 || from.value <= number)
    && (to.None? || to.value < 0 || number <= to.value)
  }

  /** The logs that match, in order. */
  function MatchLogs(logs: seq<Log>, addresses: seq<seq<byte>>, wanted: seq<seq<Hash>>): seq<Log> {
    if logs == [] then []
    else
      var l := logs[|logs| - 1];
      MatchLogs(logs[..|logs| - 1], addresses, wanted)
      + (if Matches(l.address, l.topics, addresses, wanted) then [l] else [])
  }

  /** The logs whose block number is within the bounds, in order. */
  function Bounded(logs: seq<Log>, from: Option<int>, to: Option<int>): seq<Log> {
    if logs == [] then []
    else
      var l := logs[|logs| - 1];
      Bounded(logs[..|logs| - 1], from, to) + (if InBounds(l.blockNumber, from, to) then [l] else [])
  }

  /** filterLogs. */
  method FilterLogs(logs: seq<Log>, from: Option<int>, to: Option<int>, addresses: seq<seq<byte>>,
                    wanted: seq<seq<Hash>>)
    returns (ret: seq<Log>)
    ensures ret == MatchLogs(Bounded(logs, from, to), addresses, wanted)
  {
    ret := [];
    for i := 0 to |logs|
      invariant ret == MatchLogs(Bounded(logs[..i], from, to), addresses, wanted)
    {
      var l := logs[i];
      BoundedNext(logs, i, from, to, addresses, wanted);
      if from.Some? && from.value >= 0 && from.value > l.blockNumber {
        continue;
      }
      if to.Some? && to.value >= 0 && to.value < l.blockNumber {
        continue;
      }
      var ok := FilterFunc(l.address, l.topics, addresses, wanted);
      if ok {
        ret := ret + [l];
      }
    }
    assert logs[..|logs|] == logs;
  }

  lemma {:induction false} BoundedNext(logs: seq<Log>, i: nat, from: Option<int>, to: Option<int>,
                                       addresses: seq<seq<byte>>, wanted: seq<seq<Hash>>)
    requires i < |logs|
    ensures var l := logs[i];
            MatchLogs(Bounded(logs[..i + 1], from, to), addresses, wanted)
            == MatchLogs(Bounded(logs[..i], from, to), addresses, wanted)
               + (if InBounds(l.blockNumber, from, to) && Matches(l.address, l.topics, addresses, wanted)
                  then [l] else [])
  {
    assert logs[..i + 1][..i] == logs[..i];
    var before := Bounded(logs[..i], from, to);
    if InBounds(logs[i].blockNumber, from, to) {
      assert (before + [logs[i]])[..|before|] == before;
    } else {
      assert Bounded(logs[..i + 1], from, to) == before;
    }
  }

  ghost predicate Within(number: int, from: Option<int>, to: Option<int>) {
    && (from.Some? && from.value >= 0 ==> from.value <= number)
    && (to.Some? && to.value >= 0 ==> number <= to.value)
  }

  /** A log within the bounds that the criteria select comes right after those before it, and any other log is left
      out. */
  lemma {:induction false} FilterPlaces(logs: seq<Log>, i: nat, from: Option<int>, to: Option<int>,
                                        addresses: seq<seq<byte>>, wanted: seq<seq<Hash>>)
    requires i < |logs|
    ensures var l := logs[i];
            var before := MatchLogs(Bounded(logs[..i], from, to), addresses, wanted);
            var taken := Within(l.blockNumber, from, to) && Selects(l.address, l.topics, addresses, wanted);
            && MatchLogs(Bounded(logs[..i + 1], from, to), addresses, wanted) == before + (if taken then [l] else [])
            && before <= MatchLogs(Bounded(logs, from, to), addresses, wanted)
  {
    hide MatchLogs, Bounded, Matches, Selects;
    BoundedNext(logs, i, from, to, addresses, wanted);
    SelectsIs(logs[i].address, logs[i].topics, addresses, wanted);
    assert logs == logs[..i] + logs[i..];
    FilterConcat(logs[..i], logs[i..], from, to, addresses, wanted);
  }

  lemma {:induction false} SelectsIs(address: seq<byte>, topics: seq<Hash>, addresses: seq<seq<byte>>,
                                     wanted: seq<seq<Hash>>)
    ensures Selects(address, topics, addresses, wanted) <==> Matches(address, topics, addresses, wanted)
  {
    if Selects(address, topics, addresses, wanted) {
      assert wanted != [] ==> |wanted[|wanted| - 1]| >= 0;
    }
  }

  lemma {:induction false} MatchConcat(a: seq<Log>, b: seq<Log>, addresses: seq<seq<byte>>, wanted: seq<seq<Hash>>)
    ensures MatchLogs(a + b, addresses, wanted) == MatchLogs(a, addresses, wanted) + MatchLogs(b, addresses, wanted)
  {
    if b == [] {
      assert a + b == a;
    } else {
      var front, last := b[..|b| - 1], b[|b| - 1];
      MatchConcat(a, front, addresses, wanted);
      assert (a + b)[..|a + b| - 1] == a + front && (a + b)[|a + b| - 1] == last;
      var tail := if Matches(last.address, last.topics, addresses, wanted) then [last] else [];
      assert MatchLogs(a + b, addresses, wanted) == MatchLogs(a + front, addresses, wanted) + tail;
    }
  }

  lemma {:induction false} BoundedConcat(a: seq<Log>, b: seq<Log>, from: Option<int>, to: Option<int>)
    ensures Bounded(a + b, from, to) == Bounded(a, from, to) + Bounded(b, from, to)
  {
    if b == [] {
      assert a + b == a;
    } else {
      var front, last := b[..|b| - 1], b[|b| - 1];
      BoundedConcat(a, front, from, to);
      assert (a + b)[..|a + b| - 1] == a + front && (a + b)[|a + b| - 1] == last;
      var tail := if InBounds(last.blockNumber, from, to) then [last] else [];
      assert Bounded(a + b, from, to) == Bounded(a + front, from, to) + tail;
    }
  }

  /** Filtering event by event is filtering all events at once. */
  lemma {:induction false} FilterConcat(a: seq<Log>, b: seq<Log>, from: Option<int>, to: Option<int>,
                                        addresses: seq<seq<byte>>, wanted: seq<seq<Hash>>)
    ensures MatchLogs(Bounded(a + b, from, to), addresses, wanted)
         == MatchLogs(Bounded(a, from, to), addresses, wanted) + MatchLogs(Bounded(b, from, to), addresses, wanted)
  {
    BoundedConcat(a, b, from, to);
    MatchConcat(Bounded(a, from, to), Bounded(b, from, to), addresses, wanted);
  }

  lemma {:induction false} MatchEverything(logs: seq<Log>)
    ensures MatchLogs(logs, [], []) == logs
  {
    if logs != [] {
      var front, last := logs[..|logs| - 1], logs[|logs| - 1];
      MatchEverything(front);
      assert Matches(last.address, last.topics, [], []);
      assert MatchLogs(logs, [], []) == MatchLogs(front, [], []) + [last];
      hide MatchLogs;
      assert logs == front + [last];
    }
  }

  lemma {:induction false} AllInBounds(logs: seq<Log>, from: Option<int>, to: Option<int>)
    requires forall i :: 0 <= i < |logs| ==> InBounds(logs[i].blockNumber, from, to)
    ensures Bounded(logs, from, to) == logs
  {
    if logs != [] {
      var front, last := logs[..|logs| - 1], logs[|logs| - 1];
      assert forall i :: 0 <= i < |front| ==> front[i] == logs[i];
      hide InBounds;
      AllInBounds(front, from, to);
      assert Bounded(logs, from, to) == Bounded(front, from, to) + [last];
      hide Bounded;
      assert logs == front + [last];
    }
  }
}
