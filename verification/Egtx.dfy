/** Deriving an EVM transaction with one log from a Bitcoin Cash transaction (bch/egtx.go and
    convertUtxoInfoToTx in scanner/bch.go). */
module Egtx {
  import opened Bytes
  import opened LogAbi
  import opened Packing

  type Txid = seq<byte>

  datatype ScriptKind = NullData | PubKeyHash | ScriptHash | OtherScript

  /** An output as the node reports it; an address is None when it does not decode. */
  datatype Vout = Vout(satoshi: nat, kind: ScriptKind, hex: string, addresses: seq<Option<seq<byte>>>, token: TokenData)

  datatype Vin = Vin(prev: Option<Txid>, index: nat)

  datatype RawTx = RawTx(txid: Txid, vin: seq<Vin>, vout: seq<Vout>, confirmations: nat)

  type Lookup = map<Txid, RawTx>

  datatype Error = FirstOutputMustEGTX | NotHaveEGTXNulldata | SecondOutputInvalid | BadNullData

  datatype Derivation = Derivation(
    from: seq<byte>, to: seq<byte>, contract: seq<byte>, topics: seq<seq<byte>>, content: LogData)

  datatype Outcome = Derived(d: Derivation) | Rejected(error: Error) | Panic

  const EGTX_FLAG: string := "6a0445475458"

  // ---------------------------------------------------------------- hex

  function HexValue(c: char): Option<int> {
    if '0' <= c <= '9' then Some(c as int - '0' as int)
    else if 'a' <= c <= 'f' then Some(c as int - 'a' as int + 10)
    else if 'A' <= c <= 'F' then Some(c as int - 'A' as int + 10)
    else None
  }

  function DecodeHex(s: string): Option<seq<byte>> {
    if s == [] then Some([])
    else if |s| == 1 then None
    else
      var hi, lo, rest := HexValue(s[0]), HexValue(s[1]), DecodeHex(s[2..]);
      if hi.None? || lo.None? || rest.None? then None
      else
        HexRange(s[0]); HexRange(s[1]);
        Some([(16 * hi.value + lo.value) as byte] + rest.value)
  }

  lemma HexRange(c: char)
    ensures HexValue(c).Some? ==> 0 <= HexValue(c).value < 16
  {
  }

  function HexDigit(n: int): (c: char)
    requires 0 <= n < 16
    ensures HexValue(c) == Some(n)
  {
    if n < 10 then (n + '0' as int) as char else (n - 10 + 'a' as int) as char
  }

  function EncodeHex(bs: seq<byte>): (s: string)
    ensures |s| == 2 * |bs|
  {
    if bs == [] then []
    else HexByte(bs[0]) + EncodeHex(bs[1..])
  }

  function HexByte(b: byte): (s: string)
    ensures |s| == 2 && HexValue(s[0]) == Some(b as int / 16) && HexValue(s[1]) == Some(b as int % 16)
  {
    [HexDigit(b as int / 16), HexDigit(b as int % 16)]
  }

  lemma {:induction false} HexRoundTrip(bs: seq<byte>)
    ensures DecodeHex(EncodeHex(bs)) == Some(bs)
  {
    if bs != [] {
      HexRoundTrip(bs[1..]);
      var b, rest := bs[0] as int, EncodeHex(bs[1..]);
      var text := HexByte(bs[0]) + rest;
      assert EncodeHex(bs) == text && text[2..] == rest;
      hide EncodeHex, HexValue, HexByte;
      assert HexValue(text[0]) == Some(b / 16) && HexValue(text[1]) == Some(b % 16) && 16 * (b / 16) + b % 16 == b;
      assert DecodeHex(text) == Some([bs[0]] + bs[1..]);
      assert bs == [bs[0]] + bs[1..];
    }
  }

  lemma {:induction false} HexOfConcat(a: seq<byte>, b: seq<byte>)
    ensures EncodeHex(a + b) == EncodeHex(a) + EncodeHex(b)
  {
    if a == [] {
      assert a + b == b;
    } else {
      var rest := a[1..];
      HexOfConcat(rest, b);
      assert (a + b)[1..] == rest + b && (a + b)[0] == a[0];
      HexOfFirst(a);
      HexOfFirst(a + b);
      hide EncodeHex, HexByte;
      Associative(HexByte(a[0]), EncodeHex(rest), EncodeHex(b));
    }
  }

  lemma {:induction false} HexOfFirst(bs: seq<byte>)
    requires bs != []
    ensures EncodeHex(bs) == HexByte(bs[0]) + EncodeHex(bs[1..])
  {
  }

  // ---------------------------------------------------------------- pushes of a script

  function LittleEndian(bs: seq<byte>): nat {
    if bs == [] then 0 else bs[0] as int + 256 * LittleEndian(bs[1..])
  }

  /** The data elements a script pushes: direct pushes, OP_0 (empty) and OP_PUSHDATA1/2/4; other
      opcodes push nothing; a push past the end makes the script undecodable. */
  function Pushes(script: seq<byte>): Option<seq<seq<byte>>>
    decreases |script|, 1
  {
    if script == [] then Some([])
    else
      var op := script[0] as int;
      if op <= 75 then PushOf(script, 1, op)
      else if op == 76 then (if |script| < 2 then None else PushOf(script, 2, script[1] as int))
      else if op == 77 then (if |script| < 3 then None else PushOf(script, 3, LittleEndian(script[1..3])))
      else if op == 78 then (if |script| < 5 then None else PushOf(script, 5, LittleEndian(script[1..5])))
      else Pushes(script[1..])
  }

  function PushOf(script: seq<byte>, at: nat, n: nat): Option<seq<seq<byte>>>
    requires 1 <= at <= |script|
    decreases |script|, 0
  {
    if at + n > |script| then None
    else
      var rest := Pushes(script[at + n..]);
      if rest.None? then None else Some([script[at..at + n]] + rest.value)
  }

  function PushedHex(hex: string): Option<seq<seq<byte>>> {
    var script := DecodeHex(hex);
    if script.None? then None else Pushes(script.value)
  }

  // ---------------------------------------------------------------- EGTX payload

  /** convertToByte20 / convertToByte32 as a function: pad with zeros on the left, trim on the right. */
  function Fit(e: seq<byte>, n: nat): (r: seq<byte>)
    ensures |r| == n
    ensures |e| > n ==> forall i :: 0 <= i < n ==> r[i] == e[i]
    ensures |e| <= n ==> forall i :: 0 <= i < n ==> r[i] == if i < n - |e| then 0 else e[i - (n - |e|)]
  {
    if |e| <= n then Zeros(n - |e|) + e else e[..n]
  }

  /** A short element keeps its big-endian value. */
  lemma {:induction false} FitKeepsValue(e: seq<byte>, n: nat)
    requires |e| <= n
    ensures ToNat(Fit(e, n)) == ToNat(e)
  {
    NumberOfConcat(Zeros(n - |e|), e);
    NumberOfZeros(n - |e|);
  }

  method ConvertTo(e: seq<byte>, n: nat) returns (r: seq<byte>)
    ensures r == Fit(e, n)
  {
    var out := new byte[n](_ => 0);
    assert out[..] == Zeros(n);
    if |e| == 0 {
      assert Fit(e, n) == Zeros(n);
      return out[..];
    }
    if |e| <= n {
      Copy(out, n - |e|, e);
    } else {
      Copy(out, 0, e[..n]);
    }
    return out[..];
  }

  datatype Payload = Payload(contract: seq<byte>, topics: seq<seq<byte>>, other: seq<seq<byte>>)

  /** The non-empty elements, each as 32 bytes. */
  function Topics(es: seq<seq<byte>>): (r: seq<seq<byte>>)
    ensures |r| <= |es|
  {
    if es == [] then []
    else
      var last := es[|es| - 1];
      Topics(es[..|es| - 1]) + (if last == [] then [] else [Fit(last, 32)])
  }

  function Slice<T>(s: seq<T>, lo: nat, hi: nat): seq<T>
    requires lo <= hi
  {
    if |s| <= lo then [] else if |s| <= hi then s[lo..] else s[lo..hi]
  }

  /** Element 0 is the contract address, elements 1..4 are topics unless empty, the others are data. */
  function Split(es: seq<seq<byte>>): Payload {
    Payload(
      if es == [] then Zeros(20) else Fit(es[0], 20),
      Topics(Slice(es, 1, 5)),
      if |es| <= 5 then [] else es[5..])
  }

  /** ExtractEGTXNullData. */
  method ExtractEGTXNullData(hex: string) returns (r: Option<Payload>)
    ensures r == if PushedHex(hex).None? then None else Some(Split(PushedHex(hex).value))
  {
    var pushed := PushedHex(hex);
    if pushed.None? {
      return None;
    }
    var es := pushed.value;
    var contract, topics, other := Zeros(20), [], [];
    for i := 0 to |es|
      invariant Payload(contract, topics, other) == Split(es[..i])
    {
      SplitNext(es, i);
      if i == 0 {
        contract := ConvertTo(es[0], 20);
      } else if 1 <= i <= 4 {
        if |es[i]| != 0 {
          var t := ConvertTo(es[i], 32);
          topics := topics + [t];
        }
      } else {
        other := other + [es[i]];
      }
    }
    assert es[..|es|] == es;
    return Some(Payload(contract, topics, other));
  }

  lemma {:induction false} SplitNext(es: seq<seq<byte>>, i: nat)
    requires i < |es|
    ensures var now, next := Split(es[..i]), Split(es[..i + 1]);
            && next.contract == (if i == 0 then Fit(es[0], 20) else now.contract)
            && next.topics == now.topics + (if 1 <= i <= 4 && es[i] != [] then [Fit(es[i], 32)] else [])
            && next.other == now.other + (if i > 4 then [es[i]] else [])
  {
    var mid, mid' := Slice(es[..i], 1, 5), Slice(es[..i + 1], 1, 5);
    if 1 <= i <= 4 {
      assert mid' == mid + [es[i]];
      assert mid'[..|mid'| - 1] == mid;
    } else {
      assert mid' == mid;
    }
    if i > 4 {
      assert es[..i + 1][5..] == es[..i][5..] + [es[i]];
    }
  }

  lemma {:induction false} TopicPlaced(es: seq<seq<byte>>, i: nat)
    requires i < |es| && es[i] != []
    ensures |Topics(es[..i])| < |Topics(es)|
    ensures Topics(es)[|Topics(es[..i])|] == Fit(es[i], 32)
  {
    var front := es[..|es| - 1];
    if i < |front| {
      TopicPlaced(front, i);
      assert front[..i] == es[..i];
    }
  }

  /** Topic j is the one element k gives. */
  ghost predicate TopicFrom(es: seq<seq<byte>>, k: int, j: nat) {
    1 <= k <= 4 && k < |es| && es[k] != [] && |Topics(es[1..k])| == j
  }

  ghost predicate FromSomeElement(es: seq<seq<byte>>, j: nat) {
    exists k :: TopicFrom(es, k, j)
  }

  lemma {:induction false} TopicSource(es: seq<seq<byte>>, j: nat) returns (k: nat)
    requires j < |Topics(es)|
    ensures k < |es| && es[k] != [] && |Topics(es[..k])| == j
  {
    var front := es[..|es| - 1];
    if j < |Topics(front)| {
      k := TopicSource(front, j);
      assert front[..k] == es[..k];
    } else {
      k := |front|;
    }
  }

  /** Every pushed element lands in its one place: the contract address, the topic after the topics of
      the elements before it, or the data list; only empty elements at positions 1..4 are dropped, and there
      are no topics and no data besides. */
  lemma {:induction false} ElementPlaced(es: seq<seq<byte>>, i: nat)
    requires i < |es|
    ensures var p := Split(es);
            if i == 0 then p.contract == Fit(es[0], 20)
            else if i >= 5 then p.other[i - 5] == es[i]
            else
              var before := Topics(es[1..i]);
              es[i] != [] ==> |before| < |p.topics| && p.topics[|before|] == Fit(es[i], 32)
    ensures forall j :: 0 <= j < |Split(es).topics| ==> FromSomeElement(es, j)
    ensures |Split(es).other| == if |es| <= 5 then 0 else |es| - 5
  {
    if 1 <= i <= 4 && es[i] != [] {
      var mid := Slice(es, 1, 5);
      TopicPlaced(mid, i - 1);
      assert mid[..i - 1] == es[1..i];
    }
    hide Topics, Fit;
    forall j | 0 <= j < |Split(es).topics|
      ensures FromSomeElement(es, j)
    {
      TopicHasSource(es, j);
    }
  }

  lemma {:induction false} TopicHasSource(es: seq<seq<byte>>, j: nat)
    requires j < |Split(es).topics|
    ensures FromSomeElement(es, j)
  {
    hide Topics, Fit;
    var mid := Slice(es, 1, 5);
    var k := TopicSource(mid, j);
    assert mid[..k] == es[1..k + 1];
    assert TopicFrom(es, k + 1, j);
  }

  /** At most four topics result, whatever the script pushes. */
  lemma FourTopics(es: seq<seq<byte>>)
    ensures |Split(es).topics| <= 4
  {
  }

  // ---------------------------------------------------------------- outputs and inputs

  predicate PaysAddress(v: Vout) {
    v.kind == PubKeyHash || v.kind == ScriptHash
  }

  predicate OneAddress(v: Vout) {
    |v.addresses| == 1 && v.addresses[0].Some?
  }

  /** Outputs whose address cannot be read stop the process. */
  predicate AddressesReadable(vs: seq<Vout>) {
    forall i :: 0 <= i < |vs| ==> PaysAddress(vs[i]) ==> OneAddress(vs[i])
  }

  function InfoOf(v: Vout): (r: seq<byte>)
    requires OneAddress(v)
    ensures |r| == 32
  {
    ValueInfo(v.addresses[0].value, v.satoshi)
  }

  /** The 20+12 byte words of all paying outputs, in order. */
  function Infos(vs: seq<Vout>): (r: seq<seq<byte>>)
    requires AddressesReadable(vs)
    ensures forall i :: 0 <= i < |r| ==> |r[i]| == 32
  {
    if vs == [] then []
    else
      var last := vs[|vs| - 1];
      Infos(vs[..|vs| - 1]) + (if PaysAddress(last) then [InfoOf(last)] else [])
  }

  /** The token words of all paying outputs whose token data is well formed, in order. */
  function Tokens(vs: seq<Vout>): seq<TokenInfo>
    requires AddressesReadable(vs)
  {
    if vs == [] then []
    else
      var last := vs[|vs| - 1];
      Tokens(vs[..|vs| - 1]) + (if PaysAddress(last) then TokensOf(last) else [])
  }

  function TokensOf(v: Vout): seq<TokenInfo>
    requires OneAddress(v)
  {
    var t := TokenInfoOf(InfoOf(v)[..20], v.token);
    if t.None? then [] else [t.value]
  }

  /** Data pushed by the OP_RETURN outputs after the second output; undecodable ones are skipped. */
  function LaterData(vs: seq<Vout>): seq<seq<byte>> {
    if |vs| <= 2 then [] else LaterData(vs[..|vs| - 1]) + DataOf(vs[|vs| - 1])
  }

  function DataOf(v: Vout): seq<seq<byte>> {
    if v.kind != NullData || |v.hex| <= 2 then []
    else
      var pushed := PushedHex(v.hex[2..]);
      if pushed.None? then [] else pushed.value
  }

  /** The output an input spends, None when the scanner cannot read it and panics. */
  function Spent(i: Vin, lookup: Lookup): (r: Option<Vout>)
    ensures r.Some? ==> PaysAddress(r.value) && OneAddress(r.value)
  {
    if i.prev.None? || i.prev.value !in lookup then None
    else
      var outs := lookup[i.prev.value].vout;
      if i.index >= |outs| then None
      else if PaysAddress(outs[i.index]) && OneAddress(outs[i.index]) then Some(outs[i.index])
      else None
  }

  predicate InputsReadable(vin: seq<Vin>, lookup: Lookup) {
    forall i :: 0 <= i < |vin| ==> Spent(vin[i], lookup).Some?
  }

  function SpentOutputs(vin: seq<Vin>, lookup: Lookup): (r: seq<Vout>)
    requires InputsReadable(vin, lookup)
    ensures |r| == |vin| && AddressesReadable(r)
    ensures forall i :: 0 <= i < |r| ==> r[i] == Spent(vin[i], lookup).value
  {
    seq(|vin|, i requires 0 <= i < |vin| => Spent(vin[i], lookup).value)
  }

  // ---------------------------------------------------------------- derivation

  predicate HasPrefix(s: string, prefix: string) {
    |prefix| <= |s| && s[..|prefix|] == prefix
  }

  function Numbers(infos: seq<seq<byte>>): (r: seq<nat>)
    ensures |r| == |infos|
  {
    seq(|infos|, i requires 0 <= i < |infos| => ToNat(infos[i]))
  }

  function FirstAddress(infos: seq<seq<byte>>): seq<byte>
    requires forall i :: 0 <= i < |infos| ==> |infos[i]| == 32
  {
    if infos == [] then Zeros(20) else infos[0][..20]
  }

  /** What follows the EGTX flag. */
  function AfterFlag(hex: string): string {
    if HasPrefix(hex, EGTX_FLAG) then hex[|EGTX_FLAG|..] else ""
  }

  function EgtxPushes(tx: RawTx): Option<seq<seq<byte>>> {
    if tx.vout == [] then Some([])
    else if !HasPrefix(tx.vout[0].hex, EGTX_FLAG) then None
    else PushedHex(AfterFlag(tx.vout[0].hex))
  }

  function Assembled(vout: seq<Vout>, spent: seq<Vout>, p: Payload): Derivation
    requires AddressesReadable(vout) && AddressesReadable(spent)
  {
    Derivation(
      FirstAddress(Infos(spent)), FirstAddress(Infos(vout)), p.contract, p.topics,
      LogData(0, Numbers(Infos(vout)), Numbers(Infos(spent)), Tokens(vout), Tokens(spent), p.other + LaterData(vout)))
  }

  /** Why the outputs alone already decide the outcome: the first two outputs are checked before any
      address is read. */
  function EarlyStop(vout: seq<Vout>): Option<Outcome> {
    if vout != [] && vout[0].kind != NullData then Some(Rejected(FirstOutputMustEGTX))
    else if vout != [] && !HasPrefix(vout[0].hex, EGTX_FLAG) then Some(Rejected(NotHaveEGTXNulldata))
    else if |vout| > 1 && !PaysAddress(vout[1]) then Some(Rejected(SecondOutputInvalid))
    else if !AddressesReadable(vout) then Some(Panic)
    else None
  }

  /** What a transaction derives to: output checks first, then the reads that can panic, then the
      payload of the first output. */
  function Derive(tx: RawTx, lookup: Lookup): Outcome {
    var stop := EarlyStop(tx.vout);
    if stop.Some? then stop.value
    else if !InputsReadable(tx.vin, lookup) then Panic
    else
      var pushed := EgtxPushes(tx);
      if pushed.None? then Rejected(BadNullData)
      else Derived(Assembled(tx.vout, SpentOutputs(tx.vin, lookup), Split(pushed.value)))
  }

  /** The rule of the project's README: the first output is an EGTX OP_RETURN that decodes and the
      second output, if there is one, is P2PKH or P2SH. */
  predicate Derivable(tx: RawTx) {
    tx.vout == [] ||
    (&& tx.vout[0].kind == NullData
     && EgtxPushes(tx).Some?
     && (|tx.vout| > 1 ==> PaysAddress(tx.vout[1])))
  }

  /** Unless it panics, the scanner accepts exactly the derivable transactions (and one without any
      output, which it does not reject). */
  lemma AcceptsExactlyDerivable(tx: RawTx, lookup: Lookup)
    ensures Derive(tx, lookup).Derived? ==> Derivable(tx)
    ensures Derive(tx, lookup).Rejected? ==> !Derivable(tx)
    ensures Derivable(tx) ==>
              (Derive(tx, lookup).Derived? <==> AddressesReadable(tx.vout) && InputsReadable(tx.vin, lookup))
  {
  }

  ghost predicate WordTokens(ts: seq<TokenInfo>) {
    forall i :: 0 <= i < |ts| ==>
      ts[i].amount < TWO_256 && ts[i].category < TWO_256 && ts[i].head < TWO_256 && ts[i].tail < TWO_256
  }

  lemma {:induction false} WordsOfTokens(ts: seq<TokenInfo>)
    requires WordTokens(ts)
    ensures Words(TokenWords(ts))
  {
    if ts != [] {
      WordsOfTokens(ts[1..]);
    }
  }

  lemma {:induction false} TokensAreWords(vs: seq<Vout>)
    requires AddressesReadable(vs)
    ensures WordTokens(Tokens(vs))
  {
    if vs != [] {
      var last := vs[|vs| - 1];
      TokensAreWords(vs[..|vs| - 1]);
      if PaysAddress(last) && TokenOk(last.token) {
        TokenInRange(InfoOf(last)[..20], last.token);
      }
    }
  }

  lemma {:induction false} InfosAreWords(vs: seq<Vout>)
    requires AddressesReadable(vs)
    ensures Words(Numbers(Infos(vs)))
  {
    forall i | 0 <= i < |Infos(vs)|
      ensures Numbers(Infos(vs))[i] < TWO_256
    {
      WordInRange(Infos(vs)[i]);
    }
  }

  lemma {:induction false} LaterDataSplit(vs: seq<Vout>, i: nat)
    requires 2 <= i < |vs|
    ensures LaterData(vs[..i]) + DataOf(vs[i]) <= LaterData(vs)
  {
    hide DataOf;
    if i == |vs| - 1 {
      assert vs[..i + 1] == vs;
    } else {
      var front := vs[..|vs| - 1];
      LaterDataSplit(front, i);
      assert front[..i] == vs[..i];
    }
  }

  /** What an output after the second one pushes stands, unbroken and in order, in the log's data list:
      after the payload's own data and after what the outputs before it push. */
  lemma {:induction false} LaterDataPlaced(tx: RawTx, lookup: Lookup, i: nat)
    requires Derive(tx, lookup).Derived? && 2 <= i < |tx.vout|
    ensures var other, data := Derive(tx, lookup).d.content.otherData, DataOf(tx.vout[i]);
            var at := |Split(EgtxPushes(tx).value).other| + |LaterData(tx.vout[..i])|;
            at + |data| <= |other| && other[at..at + |data|] == data
  {
    hide DataOf, Split, Infos, Tokens, Numbers, FirstAddress, SpentOutputs, LaterData;
    LaterDataSplit(tx.vout, i);
    var own, before, data := Split(EgtxPushes(tx).value).other, LaterData(tx.vout[..i]), DataOf(tx.vout[i]);
    var at, all := |own| + |before|, LaterData(tx.vout);
    assert all[..|before + data|] == before + data;
    assert (own + all)[at..at + |data|] == all[|before|..|before| + |data|] == data;
  }

  /** The log data of a derived transaction decodes to exactly what was derived. */
  lemma {:induction false} DerivedDataDecodes(tx: RawTx, lookup: Lookup)
    requires Derive(tx, lookup).Derived?
    requires |Pack(Derive(tx, lookup).d.content)| < TWO_256
    ensures Encodable(Derive(tx, lookup).d.content)
    ensures Unpack(Pack(Derive(tx, lookup).d.content)) == Some(Derive(tx, lookup).d.content)
  {
    var spent := SpentOutputs(tx.vin, lookup);
    TokensAreWords(tx.vout);
    WordsOfTokens(Tokens(tx.vout));
    TokensAreWords(spent);
    WordsOfTokens(Tokens(spent));
    InfosAreWords(tx.vout);
    InfosAreWords(spent);
    RoundTrip(Derive(tx, lookup).d.content);
  }

  lemma {:induction false} OutputsNext(vs: seq<Vout>, i: nat)
    requires i < |vs| && AddressesReadable(vs[..i]) && (PaysAddress(vs[i]) ==> OneAddress(vs[i]))
    ensures AddressesReadable(vs[..i + 1])
    ensures Infos(vs[..i + 1]) == Infos(vs[..i]) + (if PaysAddress(vs[i]) then [InfoOf(vs[i])] else [])
    ensures Tokens(vs[..i + 1]) == Tokens(vs[..i]) + (if PaysAddress(vs[i]) then TokensOf(vs[i]) else [])
    ensures LaterData(vs[..i + 1]) == LaterData(vs[..i]) + (if i > 1 then DataOf(vs[i]) else [])
  {
    assert vs[..i + 1][..i] == vs[..i];
  }

  lemma {:induction false} SpentNext(vin: seq<Vin>, k: nat, lookup: Lookup)
    requires k < |vin| && InputsReadable(vin[..k], lookup) && Spent(vin[k], lookup).Some?
    ensures InputsReadable(vin[..k + 1], lookup)
    ensures SpentOutputs(vin[..k + 1], lookup) == SpentOutputs(vin[..k], lookup) + [Spent(vin[k], lookup).value]
  {
  }

  /** What the loop over the outputs has collected after i of them. */
  ghost predicate SoFar(vs: seq<Vout>, i: nat, infos: seq<seq<byte>>, tokens: seq<TokenInfo>, later: seq<seq<byte>>)
    requires i <= |vs|
  {
    && AddressesReadable(vs[..i])
    && infos == Infos(vs[..i]) && tokens == Tokens(vs[..i]) && later == LaterData(vs[..i])
  }

  lemma {:induction false} SoFarNext(vs: seq<Vout>, i: nat, infos: seq<seq<byte>>, tokens: seq<TokenInfo>,
                                     later: seq<seq<byte>>)
    requires i < |vs| && SoFar(vs, i, infos, tokens, later) && (PaysAddress(vs[i]) ==> OneAddress(vs[i]))
    ensures PaysAddress(vs[i]) ==> SoFar(vs, i + 1, infos + [InfoOf(vs[i])], tokens + TokensOf(vs[i]), later)
    ensures !PaysAddress(vs[i]) ==> SoFar(vs, i + 1, infos, tokens, later + (if i > 1 then DataOf(vs[i]) else []))
  {
    hide InfoOf, TokensOf, Infos, Tokens, LaterData;
    OutputsNext(vs, i);
    assert PaysAddress(vs[i]) ==> DataOf(vs[i]) == [];
  }

  lemma {:induction false} SoFarAll(vs: seq<Vout>, infos: seq<seq<byte>>, tokens: seq<TokenInfo>, later: seq<seq<byte>>)
    requires SoFar(vs, |vs|, infos, tokens, later)
    ensures AddressesReadable(vs) && infos == Infos(vs) && tokens == Tokens(vs) && later == LaterData(vs)
  {
    assert vs[..|vs|] == vs;
  }

  /** What the loop over the inputs has collected after k of them. */
  ghost predicate SpentSoFar(vin: seq<Vin>, k: nat, lookup: Lookup, infos: seq<seq<byte>>, tokens: seq<TokenInfo>)
    requires k <= |vin|
  {
    && InputsReadable(vin[..k], lookup)
    && infos == Infos(SpentOutputs(vin[..k], lookup)) && tokens == Tokens(SpentOutputs(vin[..k], lookup))
  }

  lemma {:induction false} SpentSoFarNext(vin: seq<Vin>, k: nat, lookup: Lookup, infos: seq<seq<byte>>,
                                          tokens: seq<TokenInfo>)
    requires k < |vin| && SpentSoFar(vin, k, lookup, infos, tokens) && Spent(vin[k], lookup).Some?
    ensures var v := Spent(vin[k], lookup).value;
            SpentSoFar(vin, k + 1, lookup, infos + [InfoOf(v)], tokens + TokensOf(v))
  {
    SpentNext(vin, k, lookup);
    var outs := SpentOutputs(vin[..k + 1], lookup);
    assert outs[..k] == SpentOutputs(vin[..k], lookup) && outs[..k + 1] == outs;
    hide SpentOutputs, InfoOf, TokensOf, Infos, Tokens;
    OutputsNext(outs, k);
  }

  /** extractInputInfos: one lookup per input; None where it panics. */
  method ExtractInputInfos(vin: seq<Vin>, lookup: Lookup)
    returns (r: Option<(seq<seq<byte>>, seq<TokenInfo>)>)
    ensures r.Some? <==> InputsReadable(vin, lookup)
    ensures r.Some? ==> r.value == (Infos(SpentOutputs(vin, lookup)), Tokens(SpentOutputs(vin, lookup)))
  {
    var infos, tokens := [], [];
    assert SpentSoFar(vin, 0, lookup, infos, tokens);
    assert vin[..|vin|] == vin;
    hide SpentSoFar;
    for k := 0 to |vin|
      invariant SpentSoFar(vin, k, lookup, infos, tokens)
    {
      var spent := Spent(vin[k], lookup);
      if spent.None? {
        return None;
      }
      var info, token := ReadOutput(spent.value);
      SpentSoFarNext(vin, k, lookup, infos, tokens);
      infos, tokens := infos + [info], tokens + token;
    }
    SpentSoFarAll(vin, lookup, infos, tokens);
    return Some((infos, tokens));
  }

  lemma {:induction false} SpentSoFarAll(vin: seq<Vin>, lookup: Lookup, infos: seq<seq<byte>>, tokens: seq<TokenInfo>)
    requires SpentSoFar(vin, |vin|, lookup, infos, tokens)
    ensures InputsReadable(vin, lookup)
    ensures infos == Infos(SpentOutputs(vin, lookup)) && tokens == Tokens(SpentOutputs(vin, lookup))
  {
    assert vin[..|vin|] == vin;
  }

  /** The receiver or sender word of one output and its token words, if it has any. */
  method ReadOutput(v: Vout) returns (info: seq<byte>, tokens: seq<TokenInfo>)
    requires OneAddress(v)
    ensures info == InfoOf(v) && tokens == TokensOf(v)
  {
    var buffer := new byte[32](_ => 0);
    assert buffer[..] == Zeros(32);
    var address, low := v.addresses[0].value, FromNat(v.satoshi * WEI_PER_SATOSHI, 20)[8..];
    Copy(buffer, 0, Take(address, 20));
    Copy(buffer, 20, low);
    CopiedTwice(address, low);
    LowBytes(v.satoshi * WEI_PER_SATOSHI, 8, 12);
    info := buffer[..];
    var token := BuildTokenInfo(info[..20], v.token);
    tokens := if token.None? then [] else [token.value];
  }

  datatype OutputsRead =
    | Stopped(outcome: Outcome)
    | Outputs(nullData: string, infos: seq<seq<byte>>, tokens: seq<TokenInfo>, later: seq<seq<byte>>)

  /** The data an output after the second one pushes: none unless it is an OP_RETURN that decodes. */
  method ReadLaterData(v: Vout) returns (data: seq<seq<byte>>)
    ensures data == DataOf(v)
  {
    data := [];
    if v.kind == NullData && |v.hex| > 2 {
      var pushed := PushedHex(v.hex[2..]);
      if pushed.Some? {
        data := pushed.value;
      }
    }
  }

  /** Why the loop over the outputs leaves at output i, if it does. */
  function Objection(v: Vout, i: nat): Option<Outcome> {
    if i == 0 && v.kind != NullData then Some(Rejected(FirstOutputMustEGTX))
    else if i == 0 && !HasPrefix(v.hex, EGTX_FLAG) then Some(Rejected(NotHaveEGTXNulldata))
    else if i == 1 && !PaysAddress(v) then Some(Rejected(SecondOutputInvalid))
    else if PaysAddress(v) && !OneAddress(v) then Some(Panic)
    else None
  }

  ghost predicate NoObjection(vout: seq<Vout>, i: nat)
    requires i <= |vout|
  {
    forall k :: 0 <= k < i ==> Objection(vout[k], k).None?
  }

  /** The first objection is the reason for stopping early. */
  lemma {:induction false} FirstObjection(vout: seq<Vout>, i: nat)
    requires i < |vout| && NoObjection(vout, i) && Objection(vout[i], i).Some?
    ensures EarlyStop(vout) == Objection(vout[i], i)
  {
    hide HasPrefix;
    assert i > 0 ==> Objection(vout[0], 0).None?;
    assert i > 1 ==> Objection(vout[1], 1).None?;
  }

  lemma {:induction false} NoObjectionAtAll(vout: seq<Vout>)
    requires NoObjection(vout, |vout|)
    ensures EarlyStop(vout).None?
  {
    hide HasPrefix;
    assert |vout| > 0 ==> Objection(vout[0], 0).None?;
    assert |vout| > 1 ==> Objection(vout[1], 1).None?;
  }

  /** The loop of convertUtxoInfoToTx over the outputs. */
  method ReadOutputs(vout: seq<Vout>) returns (r: OutputsRead)
    ensures r.Stopped? <==> EarlyStop(vout).Some?
    ensures r.Stopped? ==> EarlyStop(vout) == Some(r.outcome)
    ensures r.Outputs? ==>
              && r.nullData == (if vout == [] then "" else AfterFlag(vout[0].hex))
              && r.infos == Infos(vout) && r.tokens == Tokens(vout) && r.later == LaterData(vout)
  {
    var nullData, infos, tokens, later := "", [], [], [];
    assert SoFar(vout, 0, infos, tokens, later);
    hide SoFar, InfoOf, TokensOf, DataOf, Infos, Tokens, LaterData, HasPrefix, AfterFlag, EarlyStop;
    for i := 0 to |vout|
      invariant nullData == if i == 0 then "" else AfterFlag(vout[0].hex)
      invariant NoObjection(vout, i)
      invariant SoFar(vout, i, infos, tokens, later)
    {
      var v := vout[i];
      var objection := Objection(v, i);
      if objection.Some? {
        FirstObjection(vout, i);
        return Stopped(objection.value);
      }
      if i == 0 {
        nullData := AfterFlag(v.hex);
      }
      SoFarNext(vout, i, infos, tokens, later);
      if PaysAddress(v) {
        var info, token := ReadOutput(v);
        infos, tokens := infos + [info], tokens + token;
      } else if i > 1 {
        var data := ReadLaterData(v);
        later := later + data;
      } else {
        assert later == later + [];
      }
    }
    NoObjectionAtAll(vout);
    SoFarAll(vout, infos, tokens, later);
    return Outputs(nullData, infos, tokens, later);
  }

  /** convertUtxoInfoToTx: one pass over the outputs, then the inputs, then the payload. */
  method ConvertUtxoInfoToTx(tx: RawTx, lookup: Lookup) returns (r: Outcome)
    ensures r == Derive(tx, lookup)
  {
    assert PushedHex("") == Some([]);
    hide Infos, Tokens, LaterData, PushedHex, Split, Numbers, FirstAddress, SpentOutputs, HasPrefix, AfterFlag;
    var outputs := ReadOutputs(tx.vout);
    if outputs.Stopped? {
      return outputs.outcome;
    }
    var inputs := ExtractInputInfos(tx.vin, lookup);
    if inputs.None? {
      return Panic;
    }
    var (senders, inputTokens) := inputs.value;
    var payload := ExtractEGTXNullData(outputs.nullData);
    if payload.None? {
      return Rejected(BadNullData);
    }
    var p := payload.value;
    var content := LogData(0, Numbers(outputs.infos), Numbers(senders), outputs.tokens, inputTokens,
                           p.other + outputs.later);
    return Derived(Derivation(FirstAddress(senders), FirstAddress(outputs.infos), p.contract, p.topics, content));
  }
}
