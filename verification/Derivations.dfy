/** What the derivation of a transaction means: when it is rejected, when it panics, and what every part of the
    derived log says about the transaction (scanner/bch.go, bch/egtx.go). */
module Derivations {
  import opened Bytes
  import opened LogAbi
  import opened Packing
  import opened Egtx

  // ---------------------------------------------------------------- pushes

  /** The ways a script can push data. */
  datatype Form = Direct | PushData1 | PushData2 | PushData4

  ghost predicate Suits(data: seq<byte>, form: Form) {
    match form
    case Direct => |data| <= 75
    case PushData1 => |data| < 0x100
    case PushData2 => |data| < 0x1_0000
    case PushData4 => |data| < 0x1_0000_0000
  }

  /** One push: an opcode that is the length, or an opcode and the length in 1, 2 or 4 bytes, least significant byte
      first, and then the data. */
  function Printed(data: seq<byte>, form: Form): seq<byte> {
    var n := |data|;
    var b0, b1 := (n % 256) as byte, (n / 256 % 256) as byte;
    var b2, b3 := (n / 0x1_0000 % 256) as byte, (n / 0x100_0000 % 256) as byte;
    match form
    case Direct => [b0] + data
    case PushData1 => [76, b0] + data
    case PushData2 => [77, b0, b1] + data
    case PushData4 => [78, b0, b1, b2, b3] + data
  }

  lemma {:induction false} LittleFirst(bs: seq<byte>)
    requires bs != []
    ensures LittleEndian(bs) == bs[0] as int + 256 * LittleEndian(bs[1..])
  {
  }

  lemma {:induction false} LengthOfTwo(n: nat, bs: seq<byte>)
    requires n < 0x1_0000 && bs == [(n % 256) as byte, (n / 256 % 256) as byte]
    ensures LittleEndian(bs) == n
  {
    assert LittleEndian([]) == 0;
    hide LittleEndian;
    LittleFirst(bs);
    LittleFirst(bs[1..]);
    assert bs[1..][1..] == [];
  }

  lemma {:induction false} LengthOfFour(n: nat, low: seq<byte>, high: seq<byte>)
    requires n < 0x1_0000_0000 && low == [(n % 256) as byte, (n / 256 % 256) as byte]
    requires high == [(n / 0x1_0000 % 256) as byte, (n / 0x100_0000 % 256) as byte]
    ensures LittleEndian(low + high) == n
  {
    hide LittleEndian;
    var top := n / 0x1_0000;
    assert n / 0x100_0000 == top / 256;
    LengthOfTwo(top, high);
    LittleFirst(low + high);
    LittleFirst((low + high)[1..]);
    assert (low + high)[1..][1..] == high;
    FourDigits(n);
  }

  lemma {:induction false} FourDigits(n: nat)
    ensures n % 256 + 256 * (n / 256 % 256 + 256 * (n / 0x1_0000)) == n
  {
    assert n / 0x1_0000 == n / 256 / 256;
  }

  lemma {:induction false} PushThenRest(before: seq<byte>, data: seq<byte>, rest: seq<byte>)
    requires before != [] && Pushes(rest).Some?
    ensures PushOf(before + data + rest, |before|, |data|) == Some([data] + Pushes(rest).value)
  {
    var script, at := before + data + rest, |before|;
    assert script[at..at + |data|] == data && script[at + |data|..] == rest;
  }

  /** However an element is pushed, it is the first element, followed by those of the rest of the script. */
  lemma {:induction false} PrintedFirst(data: seq<byte>, form: Form, rest: seq<byte>)
    requires Suits(data, form) && Pushes(rest).Some?
    ensures Pushes(Printed(data, form) + rest) == Some([data] + Pushes(rest).value)
  {
    hide LittleEndian, PushOf;
    var n := |data|;
    var low := [(n % 256) as byte, (n / 256 % 256) as byte];
    var high := [(n / 0x1_0000 % 256) as byte, (n / 0x100_0000 % 256) as byte];
    var before := match form
      case Direct => [(n % 256) as byte]
      case PushData1 => [76, (n % 256) as byte]
      case PushData2 => [77] + low
      case PushData4 => [78] + (low + high);
    var script := before + data + rest;
    assert Printed(data, form) + rest == script;
    PushThenRest(before, data, rest);
    if form.PushData2? {
      LengthOfTwo(n, low);
      assert script[1..3] == low;
    } else if form.PushData4? {
      LengthOfFour(n, low, high);
      assert script[1..5] == low + high;
    }
    hide Printed;
    assert Pushes(script) == PushOf(script, |before|, n);
  }

  function PrintAll(es: seq<(seq<byte>, Form)>): seq<byte> {
    if es == [] then [] else Printed(es[0].0, es[0].1) + PrintAll(es[1..])
  }

  function Elements(es: seq<(seq<byte>, Form)>): seq<seq<byte>> {
    seq(|es|, i requires 0 <= i < |es| => es[i].0)
  }

  /** Reading a script gives back the elements printed into it, whatever opcodes push them. */
  lemma {:induction false} ScriptRoundTrip(es: seq<(seq<byte>, Form)>)
    requires forall i :: 0 <= i < |es| ==> Suits(es[i].0, es[i].1)
    ensures Pushes(PrintAll(es)) == Some(Elements(es))
  {
    hide Printed, Suits;
    if es != [] {
      ScriptRoundTrip(es[1..]);
      PrintedFirst(es[0].0, es[0].1, PrintAll(es[1..]));
      assert Elements(es) == [es[0].0] + Elements(es[1..]);
    } else {
      assert Elements(es) == [];
    }
  }

  /** A push that runs past the end makes the script undecodable; an opcode above the pushes adds nothing. */
  lemma {:induction false} OddScripts(op: byte, rest: seq<byte>)
    ensures op as int <= 75 && |rest| < op as int ==> Pushes([op] + rest).None?
    ensures op as int > 78 ==> Pushes([op] + rest) == Pushes(rest)
  {
    assert ([op] + rest)[1..] == rest;
  }

  ghost predicate HexDigits(s: string) {
    forall i :: 0 <= i < |s| ==> '0' <= s[i] <= '9' || 'a' <= s[i] <= 'f' || 'A' <= s[i] <= 'F'
  }

  /** Hexadecimal text decodes exactly when it is digits in pairs, in either case. */
  lemma {:induction false} HexDecodes(s: string)
    ensures DecodeHex(s).Some? <==> |s| % 2 == 0 && HexDigits(s)
    ensures DecodeHex(s).Some? ==> |DecodeHex(s).value| == |s| / 2
    decreases |s|
  {
    if |s| >= 2 {
      HexDecodes(s[2..]);
      assert HexDigits(s) ==> HexDigits(s[2..]);
      assert HexDigits(s[2..]) ==> forall i :: 2 <= i < |s| ==> s[i] == s[2..][i - 2];
    }
  }

  // ---------------------------------------------------------------- when a transaction is accepted

  ghost predicate Paid(v: Vout) {
    v.kind == PubKeyHash || v.kind == ScriptHash
  }

  ghost predicate Readable(v: Vout) {
    |v.addresses| == 1 && v.addresses[0].Some?
  }

  /** The input names a transaction the node knows and an output of it that pays one readable address. */
  ghost predicate SpendsReadable(i: Vin, lookup: Lookup) {
    && i.prev.Some? && i.prev.value in lookup && i.index < |lookup[i.prev.value].vout|
    && Paid(lookup[i.prev.value].vout[i.index]) && Readable(lookup[i.prev.value].vout[i.index])
  }

  ghost predicate Flagged(hex: string) {
    |hex| >= 12 && hex[..12] == "6a0445475458"
  }

  ghost predicate Stops(tx: RawTx, lookup: Lookup) {
    || (exists i :: 0 <= i < |tx.vout| && Paid(tx.vout[i]) && !Readable(tx.vout[i]))
    || (exists i :: 0 <= i < |tx.vin| && !SpendsReadable(tx.vin[i], lookup))
  }

  /** The outcome of every transaction, in the order in which the checks are made. */
  lemma {:induction false} OutcomeTable(tx: RawTx, lookup: Lookup)
    ensures var o, vout := Derive(tx, lookup), tx.vout;
            if vout != [] && vout[0].kind != NullData then o == Rejected(FirstOutputMustEGTX)
            else if vout != [] && !Flagged(vout[0].hex) then o == Rejected(NotHaveEGTXNulldata)
            else if |vout| > 1 && !Paid(vout[1]) then o == Rejected(SecondOutputInvalid)
            else if Stops(tx, lookup) then o == Panic
            else if vout != [] && PushedHex(vout[0].hex[12..]).None? then o == Rejected(BadNullData)
            else o.Derived?
  {
    hide PushedHex, Assembled;
    assert |EGTX_FLAG| == 12;
    assert AddressesReadable(tx.vout) <==> forall i :: 0 <= i < |tx.vout| ==> Paid(tx.vout[i]) ==> Readable(tx.vout[i]);
    assert InputsReadable(tx.vin, lookup) <==> forall i :: 0 <= i < |tx.vin| ==> SpendsReadable(tx.vin[i], lookup);
  }

  // ---------------------------------------------------------------- outputs and inputs of a derived transaction

  /** The outputs with this property, in order. */
  ghost function Kept(vs: seq<Vout>, p: Vout -> bool): seq<Vout> {
    if vs == [] then []
    else
      var last := vs[|vs| - 1];
      Kept(vs[..|vs| - 1], p) + (if p(last) then [last] else [])
  }

  /** An output with the property comes right after those before it, and one without is left out. */
  lemma {:induction false} KeptAt(vs: seq<Vout>, p: Vout -> bool, i: nat)
    requires i < |vs|
    ensures p(vs[i]) ==> |Kept(vs[..i], p)| < |Kept(vs, p)| && Kept(vs, p)[|Kept(vs[..i], p)|] == vs[i]
    ensures |Kept(vs[..i + 1], p)| == |Kept(vs[..i], p)| + (if p(vs[i]) then 1 else 0)
  {
    assert vs[..i + 1][..i] == vs[..i];
    if i == |vs| - 1 {
      assert vs[..i + 1] == vs;
    } else {
      KeptAt(vs[..|vs| - 1], p, i);
      assert vs[..|vs| - 1][..i] == vs[..i] && vs[..|vs| - 1][..i + 1] == vs[..i + 1];
    }
  }

  ghost const PAID: Vout -> bool := v => Paid(v)
  ghost const HOLDING: Vout -> bool := v => Paid(v) && WellFormed(v.token)

  /** What the inputs of a derived transaction spend. */
  ghost function Prevouts(tx: RawTx, lookup: Lookup): (r: seq<Vout>)
    requires forall i :: 0 <= i < |tx.vin| ==> SpendsReadable(tx.vin[i], lookup)
    ensures |r| == |tx.vin|
  {
    seq(|tx.vin|, i requires 0 <= i < |tx.vin|
        && SpendsReadable(tx.vin[i], lookup) => lookup[tx.vin[i].prev.value].vout[tx.vin[i].index])
  }

  /** Word i is the address and amount of output i. */
  ghost predicate ValuesOf(ws: seq<nat>, vs: seq<Vout>) {
    && |ws| == |vs|
    && forall i :: 0 <= i < |ws| ==> Readable(vs[i]) && ValueBytes(ws[i], vs[i].addresses[0].value, vs[i].satoshi)
  }

  /** Entry i is the token of output i. */
  ghost predicate TokensFor(ts: seq<TokenInfo>, vs: seq<Vout>) {
    && |ts| == |vs|
    && forall i :: 0 <= i < |ts| ==>
         Readable(vs[i]) && WellFormed(vs[i].token) && TokenBytes(ts[i], vs[i].addresses[0].value, vs[i].token)
  }

  /** The address of the first of these outputs, zeros if there is none. */
  ghost predicate FirstOf(a: seq<byte>, vs: seq<Vout>) {
    && |a| == 20 && (vs != [] ==> Readable(vs[0]))
    && forall k :: 0 <= k < 20 ==>
         a[k] == if vs != [] && k < |vs[0].addresses[0].value| then vs[0].addresses[0].value[k] else 0
  }

  lemma {:induction false} InfosKept(vs: seq<Vout>)
    requires AddressesReadable(vs)
    ensures |Infos(vs)| == |Kept(vs, PAID)|
    ensures forall i :: 0 <= i < |Infos(vs)| ==>
            OneAddress(Kept(vs, PAID)[i]) && Infos(vs)[i] == InfoOf(Kept(vs, PAID)[i])
  {
    hide InfoOf;
    if vs != [] {
      InfosKept(vs[..|vs| - 1]);
    }
  }

  lemma {:induction false} ValuesKept(vs: seq<Vout>)
    requires AddressesReadable(vs)
    ensures ValuesOf(Numbers(Infos(vs)), Kept(vs, PAID)) && FirstOf(FirstAddress(Infos(vs)), Kept(vs, PAID))
  {
    InfosKept(vs);
    hide Infos, ValueInfo, ValueBytes, Kept, ToNat;
    forall i | 0 <= i < |Infos(vs)|
      ensures ValueBytes(Numbers(Infos(vs))[i], Kept(vs, PAID)[i].addresses[0].value, Kept(vs, PAID)[i].satoshi)
    {
      ValueBytesOf(Kept(vs, PAID)[i].addresses[0].value, Kept(vs, PAID)[i].satoshi);
    }
    if Infos(vs) != [] {
      ValueBytesOf(Kept(vs, PAID)[0].addresses[0].value, Kept(vs, PAID)[0].satoshi);
    }
  }

  /** Only the first 20 bytes of an address count. */
  lemma {:induction false} SameSlot(t: TokenInfo, slot: seq<byte>, a: seq<byte>, data: TokenData)
    requires WellFormed(data) && TokenBytes(t, slot, data) && |slot| == 20
    requires forall k :: 0 <= k < 20 ==> slot[k] == if k < |a| then a[k] else 0
    ensures TokenBytes(t, a, data)
  {
    hide FromNat, ToNat, HasCode;
    assert forall k :: 0 <= k < 20 ==> FromNat(t.amount, 32)[k] == slot[k];
  }

  lemma {:induction false} TokenKept(v: Vout)
    requires OneAddress(v)
    ensures TokensFor(TokensOf(v), if WellFormed(v.token) then [v] else [])
  {
    hide ValueInfo, TokenInfoOf, ValueBytes, TokenBytes, WellFormed;
    var a := v.addresses[0].value;
    ValueBytesOf(a, v.satoshi);
    TokenBytesOf(InfoOf(v)[..20], v.token);
    if WellFormed(v.token) {
      SameSlot(TokenInfoOf(InfoOf(v)[..20], v.token).value, InfoOf(v)[..20], a, v.token);
    }
  }

  lemma {:induction false} TokensJoined(a: seq<TokenInfo>, b: seq<TokenInfo>, vs: seq<Vout>, ws: seq<Vout>)
    requires TokensFor(a, vs) && TokensFor(b, ws)
    ensures TokensFor(a + b, vs + ws)
  {
    hide TokenBytes, WellFormed, Readable;
  }

  lemma {:induction false} TokensKept(vs: seq<Vout>)
    requires AddressesReadable(vs)
    ensures TokensFor(Tokens(vs), Kept(vs, HOLDING))
  {
    hide TokensOf, TokensFor, WellFormed;
    if vs == [] {
      NoTokens();
    } else {
      var front, last := vs[..|vs| - 1], vs[|vs| - 1];
      TokensKept(front);
      assert Tokens(vs) == Tokens(front) + (if PaysAddress(last) then TokensOf(last) else []);
      assert Kept(vs, HOLDING) == Kept(front, HOLDING) + (if HOLDING(last) then [last] else []);
      hide Tokens, Kept;
      if Paid(last) {
        TokenKept(last);
        TokensJoined(Tokens(front), TokensOf(last), Kept(front, HOLDING), if WellFormed(last.token) then [last]
                     else []);
      } else {
        assert Tokens(vs) == Tokens(front) && Kept(vs, HOLDING) == Kept(front, HOLDING);
      }
    }
  }

  lemma {:induction false} NoTokens()
    ensures TokensFor([], [])
  {
  }

  lemma {:induction false} AllKept(vs: seq<Vout>, p: Vout -> bool)
    requires forall i :: 0 <= i < |vs| ==> p(vs[i])
    ensures Kept(vs, p) == vs
  {
    if vs != [] {
      AllKept(vs[..|vs| - 1], p);
      assert vs == vs[..|vs| - 1] + [vs[|vs| - 1]];
    }
  }

  /** The parts of a derived transaction. */
  lemma {:induction false} DerivedParts(tx: RawTx, lookup: Lookup)
    requires Derive(tx, lookup).Derived?
    ensures forall i :: 0 <= i < |tx.vin| ==> SpendsReadable(tx.vin[i], lookup)
    ensures AddressesReadable(tx.vout) && AddressesReadable(Prevouts(tx, lookup)) && EgtxPushes(tx).Some?
    ensures tx.vout == [] ==> EgtxPushes(tx) == Some([])
    ensures tx.vout != [] ==> |tx.vout[0].hex| >= 12 && EgtxPushes(tx) == PushedHex(tx.vout[0].hex[12..])
    ensures Derive(tx, lookup).d == Assembled(tx.vout, Prevouts(tx, lookup), Split(EgtxPushes(tx).value))
    ensures Kept(Prevouts(tx, lookup), PAID) == Prevouts(tx, lookup)
  {
    OutcomeTable(tx, lookup);
    hide PushedHex, Split, Infos, Tokens, LaterData;
    assert |EGTX_FLAG| == 12;
    assert SpentOutputs(tx.vin, lookup) == Prevouts(tx, lookup);
    AllKept(Prevouts(tx, lookup), PAID);
  }

  /** The value words: confirmations start at 0; outputs has one word, in order, for every P2PKH and P2SH output
      and no other; inputs has one for every input; the sender is the first input's address and the recipient the
      first such output's. */
  lemma {:induction false} DerivedValues(tx: RawTx, lookup: Lookup)
    requires Derive(tx, lookup).Derived?
    ensures forall i :: 0 <= i < |tx.vin| ==> SpendsReadable(tx.vin[i], lookup)
    ensures var d := Derive(tx, lookup).d;
            && d.content.confirmations == 0
            && ValuesOf(d.content.outputs, Kept(tx.vout, PAID)) && ValuesOf(d.content.inputs, Prevouts(tx, lookup))
            && FirstOf(d.to, Kept(tx.vout, PAID)) && FirstOf(d.from, Prevouts(tx, lookup))
  {
    hide Derive, EgtxPushes, Split, Infos, Tokens, LaterData, Numbers, FirstAddress, AddressesReadable, Kept, Prevouts,
      ValuesOf, FirstOf, SpendsReadable, PushedHex;
    DerivedParts(tx, lookup);
    ValuesKept(tx.vout);
    ValuesKept(Prevouts(tx, lookup));
  }

  /** The tokens: outputTokens has one entry, in order, for every P2PKH or P2SH output with well-formed token data
      and no other, and inputTokens likewise for the outputs spent. */
  lemma {:induction false} DerivedTokens(tx: RawTx, lookup: Lookup)
    requires Derive(tx, lookup).Derived?
    ensures forall i :: 0 <= i < |tx.vin| ==> SpendsReadable(tx.vin[i], lookup)
    ensures var content := Derive(tx, lookup).d.content;
            && TokensFor(content.outputTokens, Kept(tx.vout, HOLDING))
            && TokensFor(content.inputTokens, Kept(Prevouts(tx, lookup), HOLDING))
  {
    hide Derive, EgtxPushes, Split, Infos, Tokens, LaterData, Numbers, FirstAddress, AddressesReadable, Kept, Prevouts,
      TokensFor, SpendsReadable, PushedHex;
    DerivedParts(tx, lookup);
    TokensKept(tx.vout);
    TokensKept(Prevouts(tx, lookup));
  }

  // ---------------------------------------------------------------- payload of a derived transaction

  /** What output i adds to the data list: the pushes of an OP_RETURN output after the second that decodes. */
  ghost predicate Adds(v: Vout, i: nat, data: seq<seq<byte>>) {
    if i >= 2 && v.kind == NullData && |v.hex| > 2
      && PushedHex(v.hex[2..]).Some? then data == PushedHex(v.hex[2..]).value
    else data == []
  }

  /** The payload: contract address and topics come from the pushes after the flag of the first output, and the data
      list is the elements after the fifth, then, output by output, what the later OP_RETURN outputs push. */
  lemma {:induction false} DerivedPayload(tx: RawTx, lookup: Lookup)
    requires Derive(tx, lookup).Derived?
    ensures tx.vout != [] ==> |tx.vout[0].hex| >= 12 && PushedHex(tx.vout[0].hex[12..]).Some?
    ensures var d := Derive(tx, lookup).d;
            var p := Split(if tx.vout == [] then [] else PushedHex(tx.vout[0].hex[12..]).value);
            d.contract == p.contract && d.topics == p.topics && d.content.otherData == p.other + LaterData(tx.vout)
  {
    hide Derive, EgtxPushes, Split, Infos, Tokens, LaterData, Numbers, FirstAddress, AddressesReadable, Kept, Prevouts,
      SpendsReadable, PushedHex;
    DerivedParts(tx, lookup);
  }

  /** The data list grows, output by output, by exactly what that output pushes. */
  lemma {:induction false} DataByOutput(vs: seq<Vout>, i: nat) returns (data: seq<seq<byte>>)
    requires i < |vs|
    ensures Adds(vs[i], i, data) && LaterData([]) == [] && LaterData(vs[..i + 1]) == LaterData(vs[..i]) + data
  {
    hide PushedHex;
    assert vs[..i + 1][..i] == vs[..i];
    data := if i >= 2 then DataOf(vs[i]) else [];
  }
}
