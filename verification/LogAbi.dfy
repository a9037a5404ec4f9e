/** The six-field EGTX log data (bch/abi.go), laid out by the Solidity Contract ABI Specification,
    sections "Use of Dynamic Types" and "Formal Specification of the Encoding". */
module LogAbi {
  import opened Bytes

  datatype TokenInfo = TokenInfo(amount: nat, category: nat, head: nat, tail: nat)

  datatype LogData = LogData(
    confirmations: nat,
    outputs: seq<nat>,
    inputs: seq<nat>,
    outputTokens: seq<TokenInfo>,
    inputTokens: seq<TokenInfo>,
    otherData: seq<seq<byte>>)

  // ---------------------------------------------------------------- encoder

  function EncodeWords(ws: seq<nat>): (r: seq<byte>)
    ensures |r| == 32 * |ws|
  {
    if ws == [] then [] else Word(ws[0]) + EncodeWords(ws[1..])
  }

  function EncodeUints(ws: seq<nat>): seq<byte> {
    Word(|ws|) + EncodeWords(ws)
  }

  function TokenWords(ts: seq<TokenInfo>): (r: seq<nat>)
    ensures |r| == 4 * |ts|
  {
    if ts == [] then []
    else [ts[0].amount, ts[0].category, ts[0].head, ts[0].tail] + TokenWords(ts[1..])
  }

  function EncodeTokens(ts: seq<TokenInfo>): seq<byte> {
    Word(|ts|) + EncodeWords(TokenWords(ts))
  }

  function EncodeBytes(b: seq<byte>): seq<byte> {
    Word(|b|) + b + Zeros((32 - |b| % 32) % 32)
  }

  /** Offsets of the elements, the first one being at `first`. */
  function Heads(bs: seq<seq<byte>>, first: nat): (r: seq<byte>)
    ensures |r| == 32 * |bs|
  {
    if bs == [] then [] else Word(first) + Heads(bs[1..], first + |EncodeBytes(bs[0])|)
  }

  function Tails(bs: seq<seq<byte>>): seq<byte> {
    if bs == [] then [] else EncodeBytes(bs[0]) + Tails(bs[1..])
  }

  function EncodeBytesArray(bs: seq<seq<byte>>): seq<byte> {
    Word(|bs|) + (Heads(bs, 32 * |bs|) + Tails(bs))
  }

  /** The dynamic fields 1..5 in schema order. */
  function Fields(d: LogData): (fs: seq<seq<byte>>)
    ensures |fs| == 5
  {
    [EncodeUints(d.outputs), EncodeUints(d.inputs), EncodeTokens(d.outputTokens),
     EncodeTokens(d.inputTokens), EncodeBytesArray(d.otherData)]
  }

  function Joined(parts: seq<seq<byte>>): seq<byte> {
    if parts == [] then [] else parts[0] + Joined(parts[1..])
  }

  /** Where field k (1..5) starts: after the six head words and the fields before it. */
  function Offset(d: LogData, k: nat): nat
    requires 1 <= k <= 6
  {
    192 + |Joined(Fields(d)[..k - 1])|
  }

  /** PackEGTXLogDataEvent: the call data of the six arguments without the 4-byte selector. */
  function Pack(d: LogData): seq<byte> {
    EncodeWords([d.confirmations, Offset(d, 1), Offset(d, 2), Offset(d, 3), Offset(d, 4), Offset(d, 5)])
    + Joined(Fields(d))
  }

  // ---------------------------------------------------------------- decoder

  function ReadWord(data: seq<byte>, at: nat): Option<nat> {
    if at + 32 <= |data| then Some(ToNat(data[at..at + 32])) else None
  }

  function ReadWords(data: seq<byte>, at: nat, n: nat): Option<seq<nat>>
    decreases n
  {
    if n == 0 then Some([])
    else if at + 32 * n > |data| then None
    else
      var rest := ReadWords(data, at + 32, n - 1);
      if rest.None? then None else Some([ToNat(data[at..at + 32])] + rest.value)
  }

  function ReadUints(data: seq<byte>, at: nat): Option<seq<nat>> {
    var n := ReadWord(data, at);
    if n.None? then None else ReadWords(data, at + 32, n.value)
  }

  function Grouped(ws: seq<nat>): seq<TokenInfo> {
    if |ws| < 4 then [] else [TokenInfo(ws[0], ws[1], ws[2], ws[3])] + Grouped(ws[4..])
  }

  function ReadTokens(data: seq<byte>, at: nat): Option<seq<TokenInfo>> {
    var n := ReadWord(data, at);
    if n.None? then None else
    var ws := ReadWords(data, at + 32, 4 * n.value);
    if ws.None? then None else Some(Grouped(ws.value))
  }

  function ReadBytes(data: seq<byte>, at: nat): Option<seq<byte>> {
    var n := ReadWord(data, at);
    if n.None? || at + 32 + n.value > |data| then None
    else Some(data[at + 32..at + 32 + n.value])
  }

  /** n elements whose offsets, relative to base, stand at `at`. */
  function ReadElements(data: seq<byte>, base: nat, at: nat, n: nat): Option<seq<seq<byte>>>
    decreases n
  {
    if n == 0 then Some([])
    else if at + 32 * n > |data| then None
    else
      var e := ReadBytes(data, base + ToNat(data[at..at + 32]));
      var rest := ReadElements(data, base, at + 32, n - 1);
      if e.None? || rest.None? then None else Some([e.value] + rest.value)
  }

  function ReadBytesArray(data: seq<byte>, at: nat): Option<seq<seq<byte>>> {
    var n := ReadWord(data, at);
    if n.None? then None else ReadElements(data, at + 32, at + 32, n.value)
  }

  /** UnPackEGTXLog: follow the offset in each head word. */
  function Unpack(data: seq<byte>): Option<LogData> {
    var head := ReadWords(data, 0, 6);
    if head.None? || |head.value| != 6 then None else
    var h := head.value;
    var outputs, inputs := ReadUints(data, h[1]), ReadUints(data, h[2]);
    var outputTokens, inputTokens := ReadTokens(data, h[3]), ReadTokens(data, h[4]);
    var otherData := ReadBytesArray(data, h[5]);
    if outputs.None? || inputs.None? || outputTokens.None? || inputTokens.None? || otherData.None? then None
    else Some(LogData(h[0], outputs.value, inputs.value, outputTokens.value, inputTokens.value, otherData.value))
  }

  // ---------------------------------------------------------------- round trip

  ghost predicate Words(ws: seq<nat>) {
    forall i :: 0 <= i < |ws| ==> ws[i] < TWO_256
  }

  /** Every number is a 256-bit word and every offset fits one. */
  ghost predicate Encodable(d: LogData) {
    && d.confirmations < TWO_256
    && Words(d.outputs) && Words(d.inputs)
    && Words(TokenWords(d.outputTokens)) && Words(TokenWords(d.inputTokens))
    && |Pack(d)| < TWO_256
  }

  /** The bytes at this position are exactly this segment. */
  ghost predicate At(data: seq<byte>, at: nat, segment: seq<byte>) {
    at + |segment| <= |data| && data[at..at + |segment|] == segment
  }

  lemma {:induction false} AtSplit(data: seq<byte>, at: nat, a: seq<byte>, b: seq<byte>)
    requires At(data, at, a + b)
    ensures At(data, at, a) && At(data, at + |a|, b)
  {
    assert data[at..at + |a|] == data[at..at + |a + b|][..|a|] == a;
    assert data[at + |a|..at + |a| + |b|] == data[at..at + |a + b|][|a|..] == b;
  }

  lemma {:induction false} ReadWordAt(data: seq<byte>, at: nat, n: nat)
    requires n < TWO_256 && At(data, at, Word(n))
    ensures ReadWord(data, at) == Some(n)
  {
    WordValue(n);
  }

  lemma {:induction false} ReadWordsAt(data: seq<byte>, at: nat, ws: seq<nat>)
    requires Words(ws) && At(data, at, EncodeWords(ws))
    ensures ReadWords(data, at, |ws|) == Some(ws)
    decreases |ws|
  {
    if ws != [] {
      AtSplit(data, at, Word(ws[0]), EncodeWords(ws[1..]));
      WordValue(ws[0]);
      ReadWordsAt(data, at + 32, ws[1..]);
      assert ws == [ws[0]] + ws[1..];
    }
  }

  lemma {:induction false} ReadUintsAt(data: seq<byte>, at: nat, ws: seq<nat>)
    requires Words(ws) && |ws| < TWO_256 && At(data, at, EncodeUints(ws))
    ensures ReadUints(data, at) == Some(ws)
  {
    AtSplit(data, at, Word(|ws|), EncodeWords(ws));
    ReadWordAt(data, at, |ws|);
    ReadWordsAt(data, at + 32, ws);
  }

  lemma {:induction false} GroupedTokens(ts: seq<TokenInfo>)
    ensures Grouped(TokenWords(ts)) == ts
  {
    if ts != [] {
      GroupedTokens(ts[1..]);
      assert TokenWords(ts)[4..] == TokenWords(ts[1..]);
    }
  }

  lemma {:induction false} ReadTokenWords(data: seq<byte>, at: nat, ts: seq<TokenInfo>)
    requires Words(TokenWords(ts)) && At(data, at + 32, EncodeWords(TokenWords(ts)))
    requires ReadWord(data, at) == Some(|ts|)
    ensures ReadTokens(data, at) == Some(ts)
  {
    ReadWordsAt(data, at + 32, TokenWords(ts));
    GroupedTokens(ts);
  }

  lemma {:induction false} ReadTokensAt(data: seq<byte>, at: nat, ts: seq<TokenInfo>)
    requires Words(TokenWords(ts)) && |ts| < TWO_256 && At(data, at, EncodeTokens(ts))
    ensures ReadTokens(data, at) == Some(ts)
  {
    AtSplit(data, at, Word(|ts|), EncodeWords(TokenWords(ts)));
    ReadWordAt(data, at, |ts|);
    ReadTokenWords(data, at, ts);
  }

  lemma {:induction false} ReadBytesAt(data: seq<byte>, at: nat, b: seq<byte>)
    requires |b| < TWO_256 && At(data, at, EncodeBytes(b))
    ensures ReadBytes(data, at) == Some(b)
  {
    var pad := Zeros((32 - |b| % 32) % 32);
    AtSplit(data, at, Word(|b|) + b, pad);
    AtSplit(data, at, Word(|b|), b);
    ReadWordAt(data, at, |b|);
  }

  lemma {:induction false} ReadNextElement(data: seq<byte>, base: nat, at: nat, bs: seq<seq<byte>>, first: nat)
    requires bs != [] && at + 32 * |bs| <= |data| && ToNat(data[at..at + 32]) == first
    requires ReadBytes(data, base + first) == Some(bs[0])
    requires ReadElements(data, base, at + 32, |bs| - 1) == Some(bs[1..])
    ensures ReadElements(data, base, at, |bs|) == Some(bs)
  {
    assert bs == [bs[0]] + bs[1..];
  }

  lemma {:induction false} ReadElementsAt(data: seq<byte>, base: nat, at: nat, bs: seq<seq<byte>>, first: nat)
    requires At(data, at, Heads(bs, first)) && At(data, base + first, Tails(bs))
    requires |data| < TWO_256
    ensures ReadElements(data, base, at, |bs|) == Some(bs)
    decreases |bs|
  {
    if bs != [] {
      var next := first + |EncodeBytes(bs[0])|;
      assert Heads(bs, first) == Word(first) + Heads(bs[1..], next) && Tails(bs) == EncodeBytes(bs[0]) + Tails(bs[1..]);
      assert |bs[0]| <= |EncodeBytes(bs[0])|;
      hide Heads, Tails, EncodeBytes, ReadBytes, ReadElements, ToNat;
      AtSplit(data, at, Word(first), Heads(bs[1..], next));
      AtSplit(data, base + first, EncodeBytes(bs[0]), Tails(bs[1..]));
      ReadElementsAt(data, base, at + 32, bs[1..], next);
      WordValue(first);
      ReadBytesAt(data, base + first, bs[0]);
      ReadNextElement(data, base, at, bs, first);
    }
  }

  lemma {:induction false} ReadBytesArrayAt(data: seq<byte>, at: nat, bs: seq<seq<byte>>)
    requires At(data, at, EncodeBytesArray(bs)) && |data| < TWO_256
    ensures ReadBytesArray(data, at) == Some(bs)
  {
    var first := 32 * |bs|;
    AtSplit(data, at, Word(|bs|), Heads(bs, first) + Tails(bs));
    AtSplit(data, at + 32, Heads(bs, first), Tails(bs));
    ReadWordAt(data, at, |bs|);
    ReadElementsAt(data, at + 32, at + 32, bs, first);
  }

  lemma {:induction false} JoinedSplit(parts: seq<seq<byte>>, k: nat)
    requires k < |parts|
    ensures Joined(parts) == Joined(parts[..k]) + (parts[k] + Joined(parts[k + 1..]))
    ensures Joined(parts[..k + 1]) == Joined(parts[..k]) + parts[k]
  {
    if k == 0 {
      assert parts[..1] == [parts[0]];
      assert Joined(parts[..1]) == parts[0] + Joined(parts[..1][1..]);
    } else {
      var rest := parts[1..];
      JoinedSplit(rest, k - 1);
      assert parts[..k][1..] == rest[..k - 1];
      assert parts[..k + 1][1..] == rest[..k];
      assert rest[k..] == parts[k + 1..];
    }
  }

  lemma {:induction false} PartAt(head: seq<byte>, parts: seq<seq<byte>>, k: nat)
    requires k < |parts|
    ensures At(head + Joined(parts), |head| + |Joined(parts[..k])|, parts[k])
    ensures |Joined(parts[..k])| + |parts[k]| == |Joined(parts[..k + 1])| <= |Joined(parts)|
  {
    JoinedSplit(parts, k);
    var data := head + Joined(parts);
    var before, after := Joined(parts[..k]), Joined(parts[k + 1..]);
    hide Joined;
    Associative(head, before, parts[k] + after);
    assert At(data, 0, data);
    AtSplit(data, 0, head + before, parts[k] + after);
    AtSplit(data, |head + before|, parts[k], after);
  }

  ghost function Head(d: LogData): (r: seq<nat>)
    ensures |r| == 6
  {
    [d.confirmations, Offset(d, 1), Offset(d, 2), Offset(d, 3), Offset(d, 4), Offset(d, 5)]
  }

  /** The layout: field k stands exactly between offset k and offset k+1, so the fields follow the
      six head words without gap or overlap and the last one ends the data. */
  lemma {:induction false} Layout(d: LogData, k: nat)
    requires 1 <= k <= 5
    ensures At(Pack(d), Offset(d, k), Fields(d)[k - 1])
    ensures Offset(d, 1) == 192
    ensures Offset(d, k) + |Fields(d)[k - 1]| == Offset(d, k + 1)
    ensures Offset(d, k + 1) <= |Pack(d)| && Offset(d, 6) == |Pack(d)|
  {
    hide Fields, EncodeWords;
    var fs := Fields(d);
    assert fs[..0] == [] && fs[..5] == fs && Joined([]) == [];
    assert Pack(d) == EncodeWords(Head(d)) + Joined(fs);
    hide Joined, Head;
    PartAt(EncodeWords(Head(d)), fs, k - 1);
  }

  lemma {:induction false} HeadWords(d: LogData)
    requires Encodable(d)
    ensures ReadWords(Pack(d), 0, 6)
         == Some([d.confirmations, Offset(d, 1), Offset(d, 2), Offset(d, 3), Offset(d, 4), Offset(d, 5)])
  {
    var ws, rest := Head(d), Joined(Fields(d));
    assert Pack(d) == EncodeWords(ws) + rest && d.confirmations < TWO_256;
    OffsetsFit(d);
    hide Fields, Joined, EncodeWords, Offset;
    assert Pack(d)[0..192] == EncodeWords(ws);
    ReadWordsAt(Pack(d), 0, ws);
  }

  lemma {:induction false} OffsetsFit(d: LogData)
    requires |Pack(d)| < TWO_256
    ensures forall k :: 1 <= k <= 5 ==> Offset(d, k) < TWO_256
  {
    forall k | 1 <= k <= 5
      ensures Offset(d, k) < TWO_256
    {
      Layout(d, k);
      hide Offset, Pack;
    }
  }

  lemma {:induction false} UintFields(d: LogData)
    requires Encodable(d)
    ensures ReadUints(Pack(d), Offset(d, 1)) == Some(d.outputs)
    ensures ReadUints(Pack(d), Offset(d, 2)) == Some(d.inputs)
  {
    var data := Pack(d);
    Layout(d, 1);
    ReadUintsAt(data, Offset(d, 1), d.outputs);
    Layout(d, 2);
    ReadUintsAt(data, Offset(d, 2), d.inputs);
  }

  lemma {:induction false} TokenFields(d: LogData)
    requires Encodable(d)
    ensures ReadTokens(Pack(d), Offset(d, 3)) == Some(d.outputTokens)
    ensures ReadTokens(Pack(d), Offset(d, 4)) == Some(d.inputTokens)
  {
    var data := Pack(d);
    Layout(d, 3);
    ReadTokensAt(data, Offset(d, 3), d.outputTokens);
    Layout(d, 4);
    ReadTokensAt(data, Offset(d, 4), d.inputTokens);
  }

  lemma {:induction false} BytesField(d: LogData)
    requires Encodable(d)
    ensures ReadBytesArray(Pack(d), Offset(d, 5)) == Some(d.otherData)
  {
    Layout(d, 5);
    ReadBytesArrayAt(Pack(d), Offset(d, 5), d.otherData);
  }

  /** UnPackEGTXLog(PackEGTXLogDataEvent(x)) is x. */
  lemma {:induction false} RoundTrip(d: LogData)
    requires Encodable(d)
    ensures Unpack(Pack(d)) == Some(d)
  {
    HeadWords(d);
    UintFields(d);
    TokenFields(d);
    BytesField(d);
  }

  /** Different contents never share log data. */
  lemma {:induction false} PackInjective(d: LogData, e: LogData)
    requires Encodable(d) && Encodable(e) && Pack(d) == Pack(e)
    ensures d == e
  {
    RoundTrip(d);
    RoundTrip(e);
  }

  /** A byte string takes its length word, its bytes and the fewest zero bytes up to a multiple of 32. */
  lemma {:induction false} PaddedWithZeros(b: seq<byte>)
    ensures |EncodeBytes(b)| % 32 == 0 && 32 + |b| <= |EncodeBytes(b)| < 64 + |b|
    ensures forall i :: 32 + |b| <= i < |EncodeBytes(b)| ==> EncodeBytes(b)[i] == 0
  {
    var pad := (32 - |b| % 32) % 32;
    PaddingLength(|b|, pad);
    var head := Word(|b|) + b;
    assert EncodeBytes(b) == head + Zeros(pad);
    hide EncodeBytes, Word;
  }

  lemma {:induction false} PaddingLength(n: nat, pad: nat)
    requires pad == (32 - n % 32) % 32
    ensures (32 + n + pad) % 32 == 0 && pad < 32
  {
  }

  lemma {:induction false} SumAligned(a: nat, b: nat)
    requires a % 32 == 0 && b % 32 == 0
    ensures (a + b) % 32 == 0
  {
  }

  lemma {:induction false} TailsAligned(bs: seq<seq<byte>>)
    ensures |Tails(bs)| % 32 == 0
  {
    if bs != [] {
      PaddedWithZeros(bs[0]);
      TailsAligned(bs[1..]);
      hide EncodeBytes;
      SumAligned(|EncodeBytes(bs[0])|, |Tails(bs[1..])|);
    }
  }

  lemma {:induction false} JoinedAligned(parts: seq<seq<byte>>)
    requires forall i :: 0 <= i < |parts| ==> |parts[i]| % 32 == 0
    ensures |Joined(parts)| % 32 == 0
  {
    if parts != [] {
      JoinedAligned(parts[1..]);
      SumAligned(|parts[0]|, |Joined(parts[1..])|);
    }
  }

  lemma {:induction false} WholeWords(n: nat)
    ensures (32 * n) % 32 == 0
  {
  }

  lemma {:induction false} UintsAligned(ws: seq<nat>)
    ensures |EncodeUints(ws)| % 32 == 0
  {
    hide EncodeWords, Word;
    assert |EncodeUints(ws)| == 32 * (1 + |ws|);
    WholeWords(1 + |ws|);
  }

  lemma {:induction false} TokensAligned(ts: seq<TokenInfo>)
    ensures |EncodeTokens(ts)| % 32 == 0
  {
    hide EncodeWords, Word, TokenWords;
    assert |EncodeTokens(ts)| == 32 * (1 + |TokenWords(ts)|);
    WholeWords(1 + |TokenWords(ts)|);
  }

  lemma {:induction false} BytesArrayAligned(bs: seq<seq<byte>>)
    ensures |EncodeBytesArray(bs)| % 32 == 0
  {
    TailsAligned(bs);
    hide EncodeWords, Word, Heads, Tails;
    assert |EncodeBytesArray(bs)| == 32 * (1 + |bs|) + |Tails(bs)|;
    WholeWords(1 + |bs|);
    SumAligned(32 * (1 + |bs|), |Tails(bs)|);
  }

  lemma {:induction false} FieldAligned(d: LogData, i: nat)
    requires i < 5
    ensures |Fields(d)[i]| % 32 == 0
  {
    hide EncodeUints, EncodeTokens, EncodeBytesArray;
    UintsAligned(d.outputs);
    UintsAligned(d.inputs);
    TokensAligned(d.outputTokens);
    TokensAligned(d.inputTokens);
    BytesArrayAligned(d.otherData);
  }

  /** Every field starts on a word boundary and the data is whole words. */
  lemma {:induction false} WordAligned(d: LogData, k: nat)
    requires 1 <= k <= 6
    ensures Offset(d, k) % 32 == 0
    ensures |Pack(d)| % 32 == 0
  {
    var fs := Fields(d);
    forall i | 0 <= i < 5
      ensures |fs[i]| % 32 == 0
    {
      FieldAligned(d, i);
    }
    JoinedAligned(fs[..k - 1]);
    JoinedAligned(fs);
    hide Fields, Joined, EncodeWords;
    SumAligned(192, |Joined(fs[..k - 1])|);
    SumAligned(192, |Joined(fs)|);
  }
}
