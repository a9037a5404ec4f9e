/** The transaction builder (cmd/txbuilder/main.go), the printing side of the EGTX format. */
module TxBuilder {
  import opened Bytes
  import opened Packing
  import opened Egtx

  datatype Address = ToKeyHash(hash: seq<byte>) | ToScriptHash(hash: seq<byte>)

  datatype Script = OpReturn(bytes: seq<byte>) | PayTo(to: Address)

  datatype TxOut = TxOut(value: int, script: Script)

  /** Amounts are satoshi; payTo is absent when no payee address was given. */
  datatype Sender = Sender(
    from: seq<byte>, fee: int,
    contract: seq<byte>, payer: seq<byte>, payee: seq<byte>, fileID: seq<byte>,
    payTo: Option<Address>, payAmt: int)

  datatype Unspent = Unspent(txid: Txid, index: nat, amount: int)

  const TWO_63: int := 0x8000_0000_0000_0000
  const TWO_64: int := 0x1_0000_0000_0000_0000

  predicate IsInt64(n: int) {
    -TWO_63 <= n < TWO_63
  }

  /** Go's wrap-around of an int64 result. */
  function Int64(n: int): (r: int)
    ensures IsInt64(r) && (r - n) % TWO_64 == 0
    ensures IsInt64(n) ==> r == n
  {
    (n + TWO_63) % TWO_64 - TWO_63
  }

  /** The fixed-size arrays and integers of the Go struct. */
  ghost predicate Sized(s: Sender) {
    && IsInt64(s.fee) && IsInt64(s.payAmt)
    && |s.from| == 20 && |s.contract| == 20 && |s.payer| == 20 && |s.payee| == 20 && |s.fileID| == 32
    && (s.payTo.Some? ==> |s.payTo.value.hash| == 20)
  }

  /** AddData for the lengths used here: one direct-push opcode, then the data. */
  function Push(data: seq<byte>): seq<byte>
    requires 1 <= |data| <= 75
  {
    [|data| as byte] + data
  }

  /** buildNullDataScript. */
  function NullDataScript(s: Sender): seq<byte>
    requires |s.contract| == 20 && |s.payer| == 20 && |s.payee| == 20 && |s.fileID| == 32
  {
    [0x6a] + Push([0x45, 0x47, 0x54, 0x58])
    + (Push(s.contract) + (Push(s.payer) + (Push(s.payee) + (Push(s.fileID) + [0]))))
  }

  function Total(outs: seq<TxOut>): int {
    if outs == [] then 0 else Total(outs[..|outs| - 1]) + outs[|outs| - 1].value
  }

  function NodeOutput(o: TxOut): Vout {
    var noToken := TokenData(None, Some([]), [], "");
    var value := if o.value < 0 then 0 else o.value;
    match o.script
    case OpReturn(bytes) => Vout(value, NullData, EncodeHex(bytes), [], noToken)
    case PayTo(ToKeyHash(h)) => Vout(value, PubKeyHash, "", [Some(h)], noToken)
    case PayTo(ToScriptHash(h)) => Vout(value, ScriptHash, "", [Some(h)], noToken)
  }

  /** The built transaction as the node reports it to the scanner. */
  function NodeView(txid: Txid, u: Unspent, outs: seq<TxOut>): RawTx {
    RawTx(txid, [Vin(Some(u.txid), u.index)],
          seq(|outs|, i requires 0 <= i < |outs| => NodeOutput(outs[i])), 0)
  }

  /** The builder goes on: the unspent amount exceeds payment plus fee, in wrapped arithmetic, and there is a
      payee if there is a payment. */
  predicate Accepts(s: Sender, u: Unspent) {
    IsInt64(u.amount) && u.amount > Int64(s.payAmt + s.fee) && (s.payAmt > 0 ==> s.payTo.Some?)
  }

  function Change(s: Sender, u: Unspent): int {
    Int64(u.amount - s.payAmt - s.fee)
  }

  /** Payment and change are what they should be: the payment is not negative and the change does not
      overflow. In the one other case nothing is paid, the whole amount is fee, and the change overflows. */
  predicate Conserves(s: Sender, u: Unspent) {
    || (s.payAmt >= 0 && 0 < u.amount - s.payAmt - s.fee < TWO_63)
    || (s.payAmt == -TWO_63 && u.amount == s.fee)
  }

  /** buildEGTX: grows the output list step by step; signs says whether a signature hash can be computed.
      Outputs plus fee equal the input exactly in the cases of Conserves. */
  method BuildEGTX(s: Sender, u: Unspent, signs: bool) returns (r: Option<seq<TxOut>>)
    requires Sized(s) && IsInt64(u.amount)
    ensures r.Some? <==> Accepts(s, u) && signs
    ensures r.Some? ==> r.value == Outputs(s, u)
    ensures r.Some? ==> (Total(r.value) + s.fee == u.amount <==> Conserves(s, u))
    ensures r.Some? ==> forall i :: 1 <= i < |r.value| ==> r.value[i].value > 0
  {
    hide NullDataScript, Int64, Total, Conserves;
    if u.amount <= Int64(s.payAmt + s.fee) {
      return None;
    }
    var outs := [TxOut(0, OpReturn(NullDataScript(s)))];
    if s.payAmt > 0 {
      if s.payTo.None? {
        return None;
      }
      outs := outs + [TxOut(s.payAmt, PayTo(s.payTo.value))];
    }
    var change := Int64(Int64(u.amount - s.payAmt) - s.fee);
    WrapTwice(u.amount - s.payAmt, s.fee);
    if change > 0 {
      outs := outs + [TxOut(change, PayTo(ToKeyHash(s.from)))];
    }
    if !signs {
      return None;
    }
    assert outs == Outputs(s, u);
    ConservesIff(s, u);
    return Some(outs);
  }

  lemma {:induction false} WrapTwice(a: int, b: int)
    ensures Int64(Int64(a) - b) == Int64(a - b)
  {
    var k := (Int64(a) - a) / TWO_64;
    assert Int64(a) == a + k * TWO_64;
    SameWrap(a - b, k);
  }

  lemma {:induction false} SameWrap(n: int, k: int)
    ensures Int64(n + k * TWO_64) == Int64(n)
  {
    var m := n + TWO_63;
    assert (m + k * TWO_64) % TWO_64 == m % TWO_64 by {
      assert m == m / TWO_64 * TWO_64 + m % TWO_64;
      assert m + k * TWO_64 == (m / TWO_64 + k) * TWO_64 + m % TWO_64;
    }
  }

  lemma {:induction false} TotalOf(s: Sender, u: Unspent)
    requires Sized(s) && Accepts(s, u)
    ensures Total(Outputs(s, u))
            == (if s.payAmt > 0 then s.payAmt else 0) + (if Change(s, u) > 0 then Change(s, u) else 0)
  {
    hide NullDataScript;
    var outs := Outputs(s, u);
    assert outs[..1] == [outs[0]] && [outs[0]][..0] == [];
    assert Total([outs[0]]) == 0 by { assert Total([]) == 0; }
    if |outs| >= 2 {
      assert outs[..2][..1] == outs[..1];
      assert Total(outs[..2]) == outs[1].value;
    }
    assert outs[..|outs|] == outs;
  }

  lemma {:induction false} ConservesIff(s: Sender, u: Unspent)
    requires Sized(s) && Accepts(s, u)
    ensures Total(Outputs(s, u)) + s.fee == u.amount <==> Conserves(s, u)
  {
    TotalOf(s, u);
    hide Outputs, Total;
    var diff := u.amount - s.payAmt - s.fee;
    var k := (Change(s, u) - diff) / TWO_64;
    assert Change(s, u) == diff + k * TWO_64;
    var k2 := (Int64(s.payAmt + s.fee) - (s.payAmt + s.fee)) / TWO_64;
    assert Int64(s.payAmt + s.fee) == s.payAmt + s.fee + k2 * TWO_64;
  }

  /** A witness: a payment close to 2^63 satoshi wraps the guard, and a thousand satoshi pay it. */
  lemma {:induction false} ValueFromNowhere(s: Sender, u: Unspent)
    requires Sized(s) && s.payTo.Some? && s.payAmt == TWO_63 - 1 && s.fee == 400 && u.amount == 1000
    ensures Accepts(s, u) && Total(Outputs(s, u)) + s.fee > u.amount
  {
    TotalOf(s, u);
  }

  /** OP_RETURN first, the payment if there is one, the change last if it is positive. */
  function Outputs(s: Sender, u: Unspent): seq<TxOut>
    requires |s.contract| == 20 && |s.payer| == 20 && |s.payee| == 20 && |s.fileID| == 32
    requires s.payAmt > 0 ==> s.payTo.Some?
  {
    [TxOut(0, OpReturn(NullDataScript(s)))]
    + (if s.payAmt > 0 then [TxOut(s.payAmt, PayTo(s.payTo.value))] else [])
    + (if Change(s, u) > 0 then [TxOut(Change(s, u), PayTo(ToKeyHash(s.from)))] else [])
  }

  lemma {:induction false} PushedFirst(data: seq<byte>, rest: seq<byte>)
    requires 1 <= |data| <= 75
    ensures Pushes(rest).Some? ==> Pushes(Push(data) + rest) == Some([data] + Pushes(rest).value)
  {
    var script := Push(data) + rest;
    assert script[0] == |data| as byte && script[1..1 + |data|] == data && script[1 + |data|..] == rest;
  }

  lemma {:induction false} ScriptPushes(s: Sender)
    requires Sized(s)
    ensures Pushes(NullDataScript(s)[6..]) == Some([s.contract, s.payer, s.payee, s.fileID, []])
  {
    var e := [0 as byte];
    assert Pushes(e) == Some([[]]) by {
      assert e[1..] == [] && Pushes([]) == Some([]);
      assert Pushes(e) == PushOf(e, 1, 0);
      var none: seq<byte> := [];
      assert e[1..1] == none;
      var nothing: seq<seq<byte>> := [];
      assert [none] + nothing == [none];
    }
    PushedFirst(s.fileID, e);
    PushedFirst(s.payee, Push(s.fileID) + e);
    PushedFirst(s.payer, Push(s.payee) + (Push(s.fileID) + e));
    var body := Push(s.contract) + (Push(s.payer) + (Push(s.payee) + (Push(s.fileID) + e)));
    PushedFirst(s.contract, Push(s.payer) + (Push(s.payee) + (Push(s.fileID) + e)));
    assert [s.contract] + ([s.payer] + ([s.payee] + ([s.fileID] + [[]])))
           == [s.contract, s.payer, s.payee, s.fileID, []];
    assert NullDataScript(s)[6..] == body;
  }

  lemma {:induction false} ScriptHex(s: Sender)
    requires Sized(s)
    ensures HasPrefix(EncodeHex(NullDataScript(s)), EGTX_FLAG)
    ensures PushedHex(AfterFlag(EncodeHex(NullDataScript(s)))) == Some([s.contract, s.payer, s.payee, s.fileID, []])
  {
    var script := NullDataScript(s);
    var flag: seq<byte> := [0x6a, 0x04, 0x45, 0x47, 0x54, 0x58];
    assert script == flag + script[6..];
    HexOfConcat(flag, script[6..]);
    FlagHex();
    assert EncodeHex(script)[12..] == EncodeHex(script[6..]);
    HexRoundTrip(script[6..]);
    ScriptPushes(s);
  }

  lemma {:induction false} FlagHex()
    ensures EncodeHex([0x6a, 0x04, 0x45, 0x47, 0x54, 0x58]) == EGTX_FLAG
  {
    hide EncodeHex, HexByte;
    TwoBytes(0x6a, 0x04, [0x45, 0x47, 0x54, 0x58]);
    TwoBytes(0x45, 0x47, [0x54, 0x58]);
    TwoBytes(0x54, 0x58, []);
    FlagBytes();
    assert [0x6a, 0x04] + [0x45, 0x47, 0x54, 0x58] == [0x6a, 0x04, 0x45, 0x47, 0x54, 0x58];
    assert [0x45, 0x47] + [0x54, 0x58] == [0x45, 0x47, 0x54, 0x58];
    assert [0x54, 0x58] + [] == [0x54, 0x58];
  }

  lemma FlagBytes()
    ensures HexByte(0x6a) == "6a" && HexByte(0x04) == "04" && HexByte(0x45) == "45"
    ensures HexByte(0x47) == "47" && HexByte(0x54) == "54" && HexByte(0x58) == "58"
  {
  }

  lemma {:induction false} TwoBytes(a: byte, b: byte, rest: seq<byte>)
    ensures EncodeHex([a, b] + rest) == HexByte(a) + HexByte(b) + EncodeHex(rest)
    ensures EncodeHex([]) == ""
  {
    hide HexByte;
    assert ([a, b] + rest)[1..] == [b] + rest && ([b] + rest)[1..] == rest;
    assert EncodeHex([a, b] + rest) == HexByte(a) + EncodeHex([b] + rest);
    assert EncodeHex([b] + rest) == HexByte(b) + EncodeHex(rest);
  }

  lemma {:induction false} PayloadOf(s: Sender)
    requires Sized(s)
    ensures Split([s.contract, s.payer, s.payee, s.fileID, []])
         == Payload(s.contract, [Fit(s.payer, 32), Fit(s.payee, 32), s.fileID], [])
  {
    var mid := [s.payer, s.payee, s.fileID, []];
    assert Slice([s.contract, s.payer, s.payee, s.fileID, []], 1, 5) == mid;
    assert mid[..3] == [s.payer, s.payee, s.fileID] && mid[..3][..2] == [s.payer, s.payee];
    assert mid[..3][..2][..1] == [s.payer] && mid[..3][..2][..1][..0] == [];
    assert Fit(s.fileID, 32) == s.fileID;
    assert Topics([s.payer]) == [Fit(s.payer, 32)];
    assert Topics([s.payer, s.payee]) == [Fit(s.payer, 32), Fit(s.payee, 32)];
    assert Topics([s.payer, s.payee, s.fileID]) == [Fit(s.payer, 32), Fit(s.payee, 32), s.fileID];
  }

  lemma {:induction false} InfosOfOne(v: Vout)
    requires PaysAddress(v) && OneAddress(v)
    ensures AddressesReadable([v]) && Infos([v]) == [InfoOf(v)]
  {
    assert [v][..0] == [] && Infos([]) == [];
  }

  /** The words of the outputs after the first, of which there are at most two. */
  function PaidInfos(vs: seq<Vout>): seq<seq<byte>>
    requires 1 <= |vs| <= 3 && forall i :: 1 <= i < |vs| ==> OneAddress(vs[i])
  {
    (if |vs| > 1 then [InfoOf(vs[1])] else []) + (if |vs| > 2 then [InfoOf(vs[2])] else [])
  }

  lemma {:induction false} InfosOfBuilt(vs: seq<Vout>)
    requires 1 <= |vs| <= 3 && vs[0].kind == NullData
    requires forall i :: 1 <= i < |vs| ==> PaysAddress(vs[i]) && OneAddress(vs[i])
    ensures AddressesReadable(vs) && Infos(vs) == PaidInfos(vs) && LaterData(vs) == []
  {
    assert vs[..1] == [vs[0]] && [vs[0]][..0] == [];
    assert Infos([vs[0]]) == [] by { assert Infos([]) == []; }
    assert vs[..|vs|] == vs;
    if |vs| >= 2 {
      assert vs[..2][..1] == vs[..1];
      assert Infos(vs[..2]) == [InfoOf(vs[1])];
      assert LaterData(vs[..2]) == [];
    }
  }

  /** What the payee and the sender get, as words. */
  function OutputWords(s: Sender, u: Unspent): seq<nat>
    requires s.payAmt > 0 ==> s.payTo.Some?
  {
    (if s.payAmt > 0 then [ToNat(ValueInfo(s.payTo.value.hash, s.payAmt))] else [])
    + (if Change(s, u) > 0 then [ToNat(ValueInfo(s.from, Change(s, u)))] else [])
  }

  /** The scanner undoes the builder: what it derives from a built transaction is the contract address,
      the three topics and the two addresses the sender put in, and every output and input word. */
  lemma {:induction false} ScannerReadsBuilder(s: Sender, u: Unspent, txid: Txid, lookup: Lookup)
    requires Sized(s) && Accepts(s, u)
    requires Spent(Vin(Some(u.txid), u.index), lookup).Some?
    requires Spent(Vin(Some(u.txid), u.index), lookup).value.addresses == [Some(s.from)]
    ensures Derive(NodeView(txid, u, Outputs(s, u)), lookup).Derived?
    ensures var d := Derive(NodeView(txid, u, Outputs(s, u)), lookup).d;
            && d.contract == s.contract
            && d.topics == [Fit(s.payer, 32), Fit(s.payee, 32), s.fileID]
            && d.from == s.from
            && d.to == (if s.payAmt > 0 then s.payTo.value.hash else if Change(s, u) > 0 then s.from else Zeros(20))
            && d.content.otherData == [] && d.content.outputs == OutputWords(s, u)
            && d.content.inputs
               == [ToNat(ValueInfo(s.from, Spent(Vin(Some(u.txid), u.index), lookup).value.satoshi))]
  {
    hide Derive, Infos, Tokens, LaterData, Spent, NodeView, Outputs, ValueInfo, InfoOf, AddressesReadable, EncodeHex,
      NullDataScript, Assembled, Numbers, ToNat, Fit, PaidInfos, Int64;
    var vout := NodeView(txid, u, Outputs(s, u)).vout;
    var spent := Spent(Vin(Some(u.txid), u.index), lookup).value;
    BuiltDerives(s, u, txid, lookup);
    BuiltOutputs(s, u, txid);
    InfosOfBuilt(vout);
    InfosOfOne(spent);
    AddressFirst(spent, s.from);
    AssembledFields(vout, spent, Payload(s.contract, [Fit(s.payer, 32), Fit(s.payee, 32), s.fileID], []));
    BuiltWords(s, u, txid);
  }

  lemma {:induction false} AssembledFields(vout: seq<Vout>, spent: Vout, p: Payload)
    requires 1 <= |vout| <= 3 && AddressesReadable(vout) && AddressesReadable([spent]) && OneAddress(spent)
    requires forall i :: 1 <= i < |vout| ==> OneAddress(vout[i])
    requires Infos(vout) == PaidInfos(vout)
    requires Infos([spent]) == [InfoOf(spent)] && LaterData(vout) == []
    ensures var d := Assembled(vout, [spent], p);
            && d.contract == p.contract && d.topics == p.topics && d.content.otherData == p.other
            && d.from == InfoOf(spent)[..20] && d.to == FirstAddress(PaidInfos(vout))
            && d.content.inputs == [ToNat(InfoOf(spent))] && d.content.outputs == Numbers(PaidInfos(vout))
  {
    hide Infos, Tokens, InfoOf, LaterData, ToNat, PaidInfos;
  }

  lemma {:induction false} BuiltWords(s: Sender, u: Unspent, txid: Txid)
    requires Sized(s) && Accepts(s, u)
    ensures var vs := NodeView(txid, u, Outputs(s, u)).vout;
            && 1 <= |vs| <= 3 && (forall i :: 1 <= i < |vs| ==> OneAddress(vs[i]))
            && Numbers(PaidInfos(vs)) == OutputWords(s, u)
            && FirstAddress(PaidInfos(vs))
               == (if s.payAmt > 0 then s.payTo.value.hash else if Change(s, u) > 0 then s.from else Zeros(20))
  {
    hide NodeView, Outputs, ValueInfo, InfoOf, ToNat, Int64;
    BuiltOutputs(s, u, txid);
    if Change(s, u) > 0 {
      ValueAddress(s.from, Change(s, u));
    }
    if s.payAmt > 0 {
      ValueAddress(s.payTo.value.hash, s.payAmt);
    }
  }

  lemma {:induction false} BuiltOutcome(s: Sender, u: Unspent, txid: Txid, lookup: Lookup)
    requires Sized(s) && Accepts(s, u)
    ensures var tx := NodeView(txid, u, Outputs(s, u));
            && AddressesReadable(tx.vout) && EarlyStop(tx.vout).None? && tx.vin == [Vin(Some(u.txid), u.index)]
            && EgtxPushes(tx) == Some([s.contract, s.payer, s.payee, s.fileID, []])
  {
    hide PushedHex, EncodeHex, HasPrefix, AfterFlag, Infos, Outputs, NullDataScript, InfoOf, ValueInfo, LaterData;
    var tx := NodeView(txid, u, Outputs(s, u));
    BuiltOutputs(s, u, txid);
    InfosOfBuilt(tx.vout);
    ScriptHex(s);
  }

  lemma {:induction false} BuiltDerives(s: Sender, u: Unspent, txid: Txid, lookup: Lookup)
    requires Sized(s) && Accepts(s, u)
    requires Spent(Vin(Some(u.txid), u.index), lookup).Some?
    ensures var tx, spent := NodeView(txid, u, Outputs(s, u)), Spent(Vin(Some(u.txid), u.index), lookup).value;
            && AddressesReadable(tx.vout) && AddressesReadable([spent])
            && Derive(tx, lookup) == Derived(Assembled(tx.vout, [spent],
                 Payload(s.contract, [Fit(s.payer, 32), Fit(s.payee, 32), s.fileID], [])))
  {
    hide Split, Infos, Tokens, LaterData, Spent, NodeView, Outputs, Assembled, InfoOf, EgtxPushes, EarlyStop, Fit;
    var tx := NodeView(txid, u, Outputs(s, u));
    BuiltOutcome(s, u, txid, lookup);
    PayloadOf(s);
    assert InputsReadable(tx.vin, lookup);
    assert SpentOutputs(tx.vin, lookup) == [Spent(tx.vin[0], lookup).value];
  }

  /** Deriving a built transaction panics exactly when the output it spends cannot be read as P2PKH or P2SH. */
  lemma {:induction false} BuiltPanicsIff(s: Sender, u: Unspent, txid: Txid, lookup: Lookup)
    requires Sized(s) && Accepts(s, u)
    ensures Derive(NodeView(txid, u, Outputs(s, u)), lookup) == Panic
            <==> Spent(Vin(Some(u.txid), u.index), lookup).None?
  {
    hide Split, Infos, Tokens, LaterData, Spent, NodeView, Outputs, Assembled, InfoOf, EgtxPushes, EarlyStop, Fit;
    BuiltOutcome(s, u, txid, lookup);
    if Spent(Vin(Some(u.txid), u.index), lookup).Some? {
      BuiltDerives(s, u, txid, lookup);
    } else {
      var vin := NodeView(txid, u, Outputs(s, u)).vin;
      assert Spent(vin[0], lookup).None?;
    }
  }

  lemma ValueAddress(address: seq<byte>, satoshi: nat)
    requires |address| == 20
    ensures ValueInfo(address, satoshi)[..20] == address
  {
  }

  lemma AddressFirst(v: Vout, address: seq<byte>)
    requires |address| == 20 && v.addresses == [Some(address)]
    ensures InfoOf(v)[..20] == address && InfoOf(v) == ValueInfo(address, v.satoshi)
  {
    ValueAddress(address, v.satoshi);
  }

  lemma {:induction false} BuiltOutputs(s: Sender, u: Unspent, txid: Txid)
    requires Sized(s) && Accepts(s, u)
    ensures var vs := NodeView(txid, u, Outputs(s, u)).vout;
            && |vs| == 1 + (if s.payAmt > 0 then 1 else 0) + (if Change(s, u) > 0 then 1 else 0)
            && vs[0].kind == NullData && vs[0].hex == EncodeHex(NullDataScript(s))
            && (forall i :: 1 <= i < |vs| ==> PaysAddress(vs[i]) && OneAddress(vs[i]))
            && (Change(s, u) > 0 ==> InfoOf(vs[|vs| - 1]) == ValueInfo(s.from, Change(s, u)))
            && (s.payAmt > 0 ==> InfoOf(vs[1]) == ValueInfo(s.payTo.value.hash, s.payAmt))
  {
    hide ValueInfo, NullDataScript, EncodeHex, Int64;
  }
}
