/** The log data byte by byte, as the Solidity Contract ABI Specification ("Use of Dynamic Types", "Formal
    Specification of the Encoding") lays out the six arguments declared in bch/abi.go. */
module Schema {
  import opened Bytes
  import opened LogAbi

  /** These 256-bit words stand at this position, one after the other. */
  ghost predicate WordsAt(data: seq<byte>, at: nat, ws: seq<nat>) {
    && at + 32 * |ws| <= |data|
    && forall i :: 0 <= i < |ws| ==> data[at + 32 * i..at + 32 * i + 32] == Word(ws[i])
  }

  /** A byte string stands at this position: its length, its bytes and zeros up to a whole word. */
  ghost predicate BytesAt(data: seq<byte>, at: nat, b: seq<byte>) {
    var end := at + 32 + (|b| + 31) / 32 * 32;
    && WordsAt(data, at, [|b|]) && At(data, at + 32, b)
    && end <= |data| && forall k :: at + 32 + |b| <= k < end ==> data[k] == 0
  }

  ghost function TokenTuple(t: TokenInfo): seq<nat> {
    [t.amount, t.category, t.head, t.tail]
  }

  lemma {:induction false} EncodedWords(data: seq<byte>, at: nat, ws: seq<nat>)
    requires At(data, at, EncodeWords(ws))
    ensures WordsAt(data, at, ws)
    decreases |ws|
  {
    hide Word;
    if ws != [] {
      var rest := ws[1..];
      assert EncodeWords(ws) == Word(ws[0]) + EncodeWords(rest);
      AtSplit(data, at, Word(ws[0]), EncodeWords(rest));
      EncodedWords(data, at + 32, rest);
      forall i | 0 <= i < |ws|
        ensures data[at + 32 * i..at + 32 * i + 32] == Word(ws[i])
      {
        if i > 0 {
          var j := i - 1;
          assert data[at + 32 + 32 * j..at + 32 + 32 * j + 32] == Word(rest[j]);
        }
      }
    }
  }

  lemma {:induction false} SomeWords(data: seq<byte>, at: nat, ws: seq<nat>, k: nat, n: nat)
    requires WordsAt(data, at, ws) && k + n <= |ws|
    ensures WordsAt(data, at + 32 * k, ws[k..k + n])
  {
    hide Word;
    forall i | 0 <= i < n
      ensures data[at + 32 * k + 32 * i..at + 32 * k + 32 * i + 32] == Word(ws[k..k + n][i])
    {
      var j := k + i;
      assert data[at + 32 * j..at + 32 * j + 32] == Word(ws[j]);
      assert at + 32 * j == at + 32 * k + 32 * i;
    }
  }

  /** The head: the confirmation count, then where each of the five arrays starts. */
  lemma {:induction false} HeadAt(d: LogData)
    ensures WordsAt(Pack(d), 0, [d.confirmations, Offset(d, 1), Offset(d, 2), Offset(d, 3), Offset(d, 4), Offset(d, 5)])
  {
    hide Joined, Fields, EncodeWords, Word;
    var head := [d.confirmations, Offset(d, 1), Offset(d, 2), Offset(d, 3), Offset(d, 4), Offset(d, 5)];
    assert Pack(d) == EncodeWords(head) + Joined(Fields(d));
    assert At(Pack(d), 0, EncodeWords(head));
    EncodedWords(Pack(d), 0, head);
  }

  lemma {:induction false} UintsAt(data: seq<byte>, at: nat, ws: seq<nat>)
    requires At(data, at, EncodeUints(ws))
    ensures WordsAt(data, at, [|ws|] + ws)
  {
    var all := [|ws|] + ws;
    assert all[1..] == ws && EncodeWords(all) == EncodeUints(ws);
    EncodedWords(data, at, all);
  }

  /** The first two arrays: outputs, then inputs, each as its length and its words. */
  lemma {:induction false} ValuesAt(d: LogData)
    ensures WordsAt(Pack(d), Offset(d, 1), [|d.outputs|] + d.outputs)
    ensures WordsAt(Pack(d), Offset(d, 2), [|d.inputs|] + d.inputs)
  {
    hide Pack, Offset, EncodeUints, EncodeTokens, EncodeBytesArray;
    Layout(d, 1);
    Layout(d, 2);
    UintsAt(Pack(d), Offset(d, 1), d.outputs);
    UintsAt(Pack(d), Offset(d, 2), d.inputs);
  }

  lemma {:induction false} TupleAt(ts: seq<TokenInfo>, i: nat)
    requires i < |ts|
    ensures TokenWords(ts)[4 * i..4 * i + 4] == TokenTuple(ts[i])
  {
    var first, rest := TokenTuple(ts[0]), TokenWords(ts[1..]);
    assert TokenWords(ts) == first + rest;
    if i > 0 {
      TupleAt(ts[1..], i - 1);
      assert (first + rest)[4 * i..4 * i + 4] == rest[4 * (i - 1)..4 * (i - 1) + 4];
    }
  }

  lemma {:induction false} TuplesAt(data: seq<byte>, at: nat, ts: seq<TokenInfo>, i: nat)
    requires At(data, at, EncodeTokens(ts)) && i < |ts|
    ensures WordsAt(data, at, [|ts|]) && WordsAt(data, at + 32 + 128 * i, TokenTuple(ts[i]))
  {
    hide EncodeWords, Word;
    TokensLength(data, at, ts);
    var all := [|ts|] + TokenWords(ts);
    SomeWords(data, at, all, 4 * i + 1, 4);
    assert all[4 * i + 1..4 * i + 1 + 4] == TokenWords(ts)[4 * i..4 * i + 4];
    TupleAt(ts, i);
  }

  lemma {:induction false} TokensLength(data: seq<byte>, at: nat, ts: seq<TokenInfo>)
    requires At(data, at, EncodeTokens(ts))
    ensures WordsAt(data, at, [|ts|] + TokenWords(ts)) && WordsAt(data, at, [|ts|])
  {
    var all := [|ts|] + TokenWords(ts);
    assert all[1..] == TokenWords(ts) && EncodeWords(all) == EncodeTokens(ts);
    EncodedWords(data, at, all);
    SomeWords(data, at, all, 0, 1);
    assert all[0..1] == [|ts|];
  }

  /** The third and fourth array: output tokens, then input tokens, each entry as the tuple of the packed
      address and amount, the category, the commitment's length and head, and its tail. */
  lemma {:induction false} TokensAt(d: LogData)
    ensures WordsAt(Pack(d), Offset(d, 3), [|d.outputTokens|]) && WordsAt(Pack(d), Offset(d, 4), [|d.inputTokens|])
    ensures forall i :: 0 <= i < |d.outputTokens| ==>
              WordsAt(Pack(d), Offset(d, 3) + 32 + 128 * i, TokenTuple(d.outputTokens[i]))
    ensures forall i :: 0 <= i < |d.inputTokens| ==>
              WordsAt(Pack(d), Offset(d, 4) + 32 + 128 * i, TokenTuple(d.inputTokens[i]))
  {
    hide Pack, Offset, EncodeUints, EncodeTokens, EncodeBytesArray, WordsAt, TokenTuple;
    Layout(d, 3);
    Layout(d, 4);
    TokensLength(Pack(d), Offset(d, 3), d.outputTokens);
    TokensLength(Pack(d), Offset(d, 4), d.inputTokens);
    forall i | 0 <= i < |d.outputTokens|
      ensures WordsAt(Pack(d), Offset(d, 3) + 32 + 128 * i, TokenTuple(d.outputTokens[i]))
    {
      TuplesAt(Pack(d), Offset(d, 3), d.outputTokens, i);
    }
    forall i | 0 <= i < |d.inputTokens|
      ensures WordsAt(Pack(d), Offset(d, 4) + 32 + 128 * i, TokenTuple(d.inputTokens[i]))
    {
      TuplesAt(Pack(d), Offset(d, 4), d.inputTokens, i);
    }
  }

  /** The offset of element i, counted from the first offset word. */
  function ElementOffset(bs: seq<seq<byte>>, i: nat): nat
    requires i <= |bs|
  {
    32 * |bs| + |Tails(bs[..i])|
  }

  lemma {:induction false} HeadsAt(bs: seq<seq<byte>>, first: nat, i: nat)
    requires i < |bs|
    ensures Heads(bs, first)[32 * i..32 * i + 32] == Word(first + |Tails(bs[..i])|)
  {
    hide EncodeBytes, Word;
    var next := first + |EncodeBytes(bs[0])|;
    assert Heads(bs, first) == Word(first) + Heads(bs[1..], next);
    if i == 0 {
      assert bs[..0] == [];
    } else {
      HeadsAt(bs[1..], next, i - 1);
      assert bs[..i][1..] == bs[1..][..i - 1] && bs[..i][0] == bs[0];
      assert (Word(first) + Heads(bs[1..], next))[32 * i..32 * i + 32]
             == Heads(bs[1..], next)[32 * (i - 1)..32 * (i - 1) + 32];
    }
  }

  lemma {:induction false} TailsSplit(bs: seq<seq<byte>>, i: nat)
    requires i < |bs|
    ensures Tails(bs) == Tails(bs[..i]) + (EncodeBytes(bs[i]) + Tails(bs[i + 1..]))
  {
    hide EncodeBytes;
    if i == 0 {
      assert bs[..0] == [];
    } else {
      TailsSplit(bs[1..], i - 1);
      assert bs[..i][1..] == bs[1..][..i - 1] && bs[..i][0] == bs[0];
      assert bs[1..][i..] == bs[i + 1..] && bs[1..][i - 1] == bs[i];
      Associative(EncodeBytes(bs[0]), Tails(bs[1..][..i - 1]), EncodeBytes(bs[i]) + Tails(bs[i + 1..]));
    }
  }

  lemma {:induction false} PadLength(n: nat)
    ensures (n + 31) / 32 * 32 == n + (32 - n % 32) % 32
  {
  }

  lemma {:induction false} ZerosAt(data: seq<byte>, at: nat, n: nat)
    requires At(data, at, Zeros(n))
    ensures forall k :: at <= k < at + n ==> data[k] == 0
  {
    forall k | at <= k < at + n
      ensures data[k] == 0
    {
      assert data[k] == data[at..at + n][k - at] == Zeros(n)[k - at];
    }
  }

  lemma {:induction false} StringAt(data: seq<byte>, at: nat, b: seq<byte>)
    requires At(data, at, EncodeBytes(b))
    ensures BytesAt(data, at, b)
  {
    hide Word, Zeros;
    var pad := (32 - |b| % 32) % 32;
    PadLength(|b|);
    AtSplit(data, at, Word(|b|) + b, Zeros(pad));
    AtSplit(data, at, Word(|b|), b);
    ZerosAt(data, at + 32 + |b|, pad);
  }

  lemma {:induction false} ElementAt(data: seq<byte>, at: nat, bs: seq<seq<byte>>, i: nat)
    requires At(data, at, EncodeBytesArray(bs)) && i < |bs|
    ensures WordsAt(data, at, [|bs|]) && WordsAt(data, at + 32 + 32 * i, [ElementOffset(bs, i)])
    ensures BytesAt(data, at + 32 + ElementOffset(bs, i), bs[i])
  {
    hide Word, Heads, Tails, EncodeBytes, BytesAt;
    var heads, tails := Heads(bs, 32 * |bs|), Tails(bs);
    AtSplit(data, at, Word(|bs|), heads + tails);
    AtSplit(data, at + 32, heads, tails);
    HeadsAt(bs, 32 * |bs|, i);
    assert data[at + 32 + 32 * i..at + 32 + 32 * i + 32] == data[at + 32..at + 32 + |heads|][32 * i..32 * i + 32];
    ElementBody(data, at + 32 + 32 * |bs|, bs, i);
  }

  lemma {:induction false} ElementBody(data: seq<byte>, at: nat, bs: seq<seq<byte>>, i: nat)
    requires At(data, at, Tails(bs)) && i < |bs|
    ensures BytesAt(data, at + |Tails(bs[..i])|, bs[i])
  {
    hide Word, Tails, EncodeBytes, BytesAt;
    TailsSplit(bs, i);
    var before, after := Tails(bs[..i]), Tails(bs[i + 1..]);
    AtSplit(data, at, before, EncodeBytes(bs[i]) + after);
    AtSplit(data, at + |before|, EncodeBytes(bs[i]), after);
    StringAt(data, at + |before|, bs[i]);
  }

  lemma {:induction false} StringCountAt(d: LogData)
    ensures WordsAt(Pack(d), Offset(d, 5), [|d.otherData|])
  {
    hide Pack, Offset, EncodeUints, EncodeTokens, Word, Heads, Tails;
    Layout(d, 5);
    AtSplit(Pack(d), Offset(d, 5), Word(|d.otherData|), Heads(d.otherData, 32 * |d.otherData|) + Tails(d.otherData));
  }

  /** The last array: the byte strings, each behind an offset counted from the first offset word. */
  lemma {:induction false} StringsAt(d: LogData, i: nat)
    requires i < |d.otherData|
    ensures var at, bs := Offset(d, 5), d.otherData;
            && WordsAt(Pack(d), at, [|bs|]) && WordsAt(Pack(d), at + 32 + 32 * i, [ElementOffset(bs, i)])
            && BytesAt(Pack(d), at + 32 + ElementOffset(bs, i), bs[i])
  {
    hide Pack, Offset, EncodeUints, EncodeTokens, EncodeBytesArray, WordsAt, BytesAt, ElementOffset;
    Layout(d, 5);
    ElementAt(Pack(d), Offset(d, 5), d.otherData, i);
  }
}
