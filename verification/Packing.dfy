/** The 32-byte words of the log data: address and value (scanner/bch.go, bch/egtx.go) and CashTokens
    information (buildTokenInfo in scanner/bch.go). */
module Packing {
  import opened Bytes
  import opened LogAbi

  const WEI_PER_SATOSHI: nat := 10_000_000_000
  /** The largest satoshi amount whose wei amount fits in 12 bytes. */
  const MAX_SATOSHI: nat := 7_922_816_251_426_433_759
  const TWO_63: int := 0x8000_0000_0000_0000
  const TWO_64: int := 0x1_0000_0000_0000_0000

  /** The address part of a word: copy(word[:20], address). */
  function Slot20(address: seq<byte>): (r: seq<byte>)
    ensures |r| == 20
    ensures |address| == 20 ==> r == address
  {
    Copied(Zeros(20), 0, address)
  }

  /** 20 bytes of address, then the low 12 bytes of the amount. */
  function AddressAmount(address: seq<byte>, amount: nat): (r: seq<byte>)
    ensures |r| == 32
  {
    Slot20(address) + FromNat(amount, 12)
  }

  function ValueInfo(address: seq<byte>, satoshi: nat): (r: seq<byte>)
    ensures |r| == 32
  {
    AddressAmount(address, satoshi * WEI_PER_SATOSHI)
  }

  /** What a log consumer reads from such a word. */
  function AddressOf(word: nat): seq<byte> {
    FromNat(word, 32)[..20]
  }

  function AmountOf(word: nat): nat {
    ToNat(FromNat(word, 32)[20..])
  }

  lemma {:induction false} LowBytes(n: nat, high: nat, low: nat)
    ensures FromNat(n, high + low)[high..] == FromNat(n, low)
    decreases low
  {
    if low != 0 {
      LowBytes(n / 256, high, low - 1);
      assert FromNat(n, high + low) == FromNat(n / 256, high + low - 1) + [(n % 256) as byte];
    }
  }

  lemma {:induction false} ReadAddressAmount(address: seq<byte>, amount: nat)
    ensures AddressOf(ToNat(AddressAmount(address, amount))) == Slot20(address)
    ensures AmountOf(ToNat(AddressAmount(address, amount))) == amount % TWO_96
  {
    var bs := AddressAmount(address, amount);
    NumberOfBytes(bs);
    assert bs[20..] == FromNat(amount, 12);
    BytesOfNumber(amount, 12);
    Pow12();
  }

  /** The word gives back address and wei amount exactly up to MAX_SATOSHI; above it the amount is
      reduced modulo 2^96. */
  lemma {:induction false} ValueWordExact(address: seq<byte>, satoshi: nat)
    requires |address| == 20
    ensures AddressOf(ToNat(ValueInfo(address, satoshi))) == address
    ensures AmountOf(ToNat(ValueInfo(address, satoshi))) == satoshi * WEI_PER_SATOSHI % TWO_96
    ensures AmountOf(ToNat(ValueInfo(address, satoshi))) == satoshi * WEI_PER_SATOSHI <==> satoshi <= MAX_SATOSHI
  {
    hide FromNat, ToNat, AddressAmount, AddressOf, AmountOf;
    ReadAddressAmount(address, satoshi * WEI_PER_SATOSHI);
  }

  /** Distinct (address, amount) pairs keep distinct words within the bound. */
  lemma {:induction false} ValueWordInjective(a: seq<byte>, s: nat, b: seq<byte>, t: nat)
    requires |a| == 20 && |b| == 20 && s <= MAX_SATOSHI && t <= MAX_SATOSHI
    requires ToNat(ValueInfo(a, s)) == ToNat(ValueInfo(b, t))
    ensures a == b && s == t
  {
    ValueWordExact(a, s);
    ValueWordExact(b, t);
  }

  /** The word byte by byte: the first 20 bytes of the address, zeros if it is shorter, then the wei amount. */
  ghost predicate ValueBytes(word: nat, address: seq<byte>, satoshi: nat) {
    var bs := FromNat(word, 32);
    && (forall k :: 0 <= k < 20 ==> bs[k] == if k < |address| then address[k] else 0)
    && ToNat(bs[20..]) == satoshi * 10_000_000_000 % 0x1_0000_0000_0000_0000_0000_0000
  }

  lemma {:induction false} ValueBytesOf(address: seq<byte>, satoshi: nat)
    ensures ValueBytes(ToNat(ValueInfo(address, satoshi)), address, satoshi)
    ensures forall k :: 0 <= k < 20 ==> ValueInfo(address, satoshi)[k] == if k < |address| then address[k] else 0
  {
    var bs := ValueInfo(address, satoshi);
    NumberOfBytes(bs);
    hide FromNat, ToNat;
    assert bs[20..] == FromNat(satoshi * WEI_PER_SATOSHI, 12);
    BytesOfNumber(satoshi * WEI_PER_SATOSHI, 12);
    Pow12();
  }

  /** The word is below 2^256, so it is a legal ABI word. */
  lemma {:induction false} WordInRange(bs: seq<byte>)
    requires |bs| == 32
    ensures ToNat(bs) < TWO_256
  {
    Pow32();
  }

  // ---------------------------------------------------------------- CashTokens

  datatype TokenData = TokenData(
    amount: Option<int>,             // the decimal string, None when it is not a number
    category: Option<seq<byte>>,     // the hex string, None when it does not decode
    commitment: seq<byte>,
    capability: string)

  predicate Int64(n: int) { -TWO_63 <= n < TWO_63 }

  /** Go's uint64(x) and int64(x). */
  function ToUint64(n: int): nat
    requires Int64(n)
  {
    if n < 0 then n + TWO_64 else n
  }

  function ToInt64(n: nat): int {
    if n < TWO_63 then n else n - TWO_64
  }

  function CapabilityCode(s: string): byte {
    if s == "none" then 1 else if s == "mutable" then 2 else if s == "minting" then 3 else 0
  }

  function PadRight(bs: seq<byte>, n: nat): (r: seq<byte>)
    requires |bs| <= n
    ensures |r| == n && r[..|bs|] == bs
  {
    bs + Zeros(n - |bs|)
  }

  function Take(bs: seq<byte>, n: nat): seq<byte> {
    if |bs| < n then bs else bs[..n]
  }

  function Drop(bs: seq<byte>, n: nat): seq<byte> {
    if |bs| < n then [] else bs[n..]
  }

  /** Length, capability and the first 8 commitment bytes. */
  function CommitmentHead(commitment: seq<byte>, capability: byte): (r: seq<byte>)
    requires |commitment| <= 40
    ensures |r| == 32
  {
    [|commitment| as byte, capability] + Zeros(22) + PadRight(Take(commitment, 8), 8)
  }

  /** The commitment bytes after the first 8. */
  function CommitmentTail(commitment: seq<byte>): (r: seq<byte>)
    requires |commitment| <= 40
    ensures |r| == 32
  {
    PadRight(Drop(commitment, 8), 32)
  }

  predicate TokenOk(t: TokenData) {
    && t.amount.Some? && Int64(t.amount.value)
    && t.category.Some? && |t.category.value| == 32
    && |t.commitment| <= 40
  }

  /** The four words of a token, None where buildTokenInfo returns an error. */
  function TokenInfoOf(address: seq<byte>, t: TokenData): Option<TokenInfo> {
    if !TokenOk(t) then None
    else Some(TokenInfo(
      ToNat(AddressAmount(address, ToUint64(t.amount.value))),
      ToNat(t.category.value),
      ToNat(CommitmentHead(t.commitment, CapabilityCode(t.capability))),
      ToNat(CommitmentTail(t.commitment))))
  }

  datatype Token = Token(address: seq<byte>, amount: int, category: seq<byte>, capability: byte, commitment: seq<byte>)

  /** What the four words say. */
  function ReadToken(t: TokenInfo): Token {
    var head, tail := FromNat(t.head, 32), FromNat(t.tail, 32);
    Token(
      AddressOf(t.amount),
      ToInt64(AmountOf(t.amount)),
      FromNat(t.category, 32),
      head[1],
      Take(head[24..] + tail, head[0] as nat))
  }

  lemma {:induction false} CommitmentJoined(c: seq<byte>, capability: byte)
    requires |c| <= 40
    ensures Take(CommitmentHead(c, capability)[24..] + CommitmentTail(c), |c|) == c
  {
    assert CommitmentHead(c, capability)[24..] == PadRight(Take(c, 8), 8);
  }

  lemma {:induction false} ReadSignedAmount(address: seq<byte>, n: int)
    requires |address| == 20 && Int64(n)
    ensures AddressOf(ToNat(AddressAmount(address, ToUint64(n)))) == address
    ensures ToInt64(AmountOf(ToNat(AddressAmount(address, ToUint64(n))))) == n
  {
    hide FromNat, ToNat, AddressAmount, AddressOf, AmountOf;
    ReadAddressAmount(address, ToUint64(n));
  }

  lemma {:induction false} ReadCommitment(c: seq<byte>, capability: byte)
    requires |c| <= 40
    ensures var head := FromNat(ToNat(CommitmentHead(c, capability)), 32);
            var tail := FromNat(ToNat(CommitmentTail(c)), 32);
            head[1] == capability && Take(head[24..] + tail, head[0] as nat) == c
  {
    NumberOfBytes(CommitmentHead(c, capability));
    NumberOfBytes(CommitmentTail(c));
    CommitmentJoined(c, capability);
  }

  /** The four words determine address, amount, category, capability code and commitment. */
  lemma {:induction false} TokenRoundTrip(address: seq<byte>, t: TokenData)
    requires |address| == 20 && TokenOk(t)
    ensures TokenInfoOf(address, t).Some?
    ensures ReadToken(TokenInfoOf(address, t).value)
         == Token(address, t.amount.value, t.category.value, CapabilityCode(t.capability), t.commitment)
    ensures HasCode(t.capability, ReadToken(TokenInfoOf(address, t).value).capability)
  {
    hide FromNat, ToNat, CommitmentHead, CommitmentTail, Take, AddressAmount, AddressOf, AmountOf;
    ReadSignedAmount(address, t.amount.value);
    NumberOfBytes(t.category.value);
    ReadCommitment(t.commitment, CapabilityCode(t.capability));
  }

  /** Every word of a token is a legal ABI word. */
  lemma {:induction false} TokenInRange(address: seq<byte>, t: TokenData)
    requires TokenOk(t)
    ensures var i := TokenInfoOf(address, t).value;
            i.amount < TWO_256 && i.category < TWO_256 && i.head < TWO_256 && i.tail < TWO_256
  {
    WordInRange(AddressAmount(address, ToUint64(t.amount.value)));
    WordInRange(t.category.value);
    WordInRange(CommitmentHead(t.commitment, CapabilityCode(t.capability)));
    WordInRange(CommitmentTail(t.commitment));
  }

  /** buildTokenInfo succeeds for these tokens. */
  ghost predicate WellFormed(t: TokenData) {
    && t.amount.Some? && -0x8000_0000_0000_0000 <= t.amount.value <= 0x7fff_ffff_ffff_ffff
    && t.category.Some? && |t.category.value| == 32 && |t.commitment| <= 40
  }

  /** The code of a capability. */
  ghost predicate HasCode(capability: string, code: byte) {
    && (code == 1 <==> capability == "none")
    && (code == 2 <==> capability == "mutable")
    && (code == 3 <==> capability == "minting")
    && (code == 0 <==> capability != "none" && capability != "mutable" && capability != "minting")
  }

  /** The four words byte by byte: address and two's complement amount, the category, length, capability code
      and first 8 bytes of the commitment, and its other bytes. */
  ghost predicate TokenBytes(i: TokenInfo, address: seq<byte>, t: TokenData)
    requires WellFormed(t)
  {
    var a, head, tail, c := FromNat(i.amount, 32), FromNat(i.head, 32), FromNat(i.tail, 32), t.commitment;
    && (forall k :: 0 <= k < 20 ==> a[k] == if k < |address| then address[k] else 0)
    && ToNat(a[20..]) == (if t.amount.value < 0 then t.amount.value + 0x1_0000_0000_0000_0000 else t.amount.value)
    && FromNat(i.category, 32) == t.category.value
    && head[0] as int == |c| && HasCode(t.capability, head[1])
    && (forall k :: 2 <= k < 24 ==> head[k] == 0)
    && (forall k :: 24 <= k < 32 ==> head[k] == if k - 24 < |c| then c[k - 24] else 0)
    && (forall k :: 0 <= k < 32 ==> tail[k] == if k + 8 < |c| then c[k + 8] else 0)
  }

  lemma {:induction false} AmountBytes(address: seq<byte>, n: nat)
    requires n < TWO_64
    ensures var a := FromNat(ToNat(AddressAmount(address, n)), 32);
            ToNat(a[20..]) == n && forall k :: 0 <= k < 20 ==> a[k] == if k < |address| then address[k] else 0
  {
    var bs := AddressAmount(address, n);
    NumberOfBytes(bs);
    hide FromNat, ToNat;
    assert bs[20..] == FromNat(n, 12);
    BytesOfNumber(n, 12);
    Pow12();
  }

  lemma {:induction false} HeadBytes(c: seq<byte>, code: byte)
    requires |c| <= 40
    ensures var head := CommitmentHead(c, code);
            && head[0] as int == |c| && head[1] == code && (forall k :: 2 <= k < 24 ==> head[k] == 0)
            && (forall k :: 24 <= k < 32 ==> head[k] == if k - 24 < |c| then c[k - 24] else 0)
  {
  }

  lemma {:induction false} TailBytes(c: seq<byte>)
    requires |c| <= 40
    ensures forall k :: 0 <= k < 32 ==> CommitmentTail(c)[k] == if k + 8 < |c| then c[k + 8] else 0
  {
  }

  lemma CodeTold(capability: string)
    ensures HasCode(capability, CapabilityCode(capability))
  {
  }

  lemma {:induction false} TokenBytesOf(address: seq<byte>, t: TokenData)
    ensures TokenInfoOf(address, t).Some? <==> WellFormed(t)
    ensures WellFormed(t) ==> TokenBytes(TokenInfoOf(address, t).value, address, t)
  {
    hide FromNat, ToNat, AddressAmount, CommitmentHead, CommitmentTail, CapabilityCode, HasCode;
    if WellFormed(t) {
      var code := CapabilityCode(t.capability);
      AmountBytes(address, ToUint64(t.amount.value));
      NumberOfBytes(t.category.value);
      NumberOfBytes(CommitmentHead(t.commitment, code));
      NumberOfBytes(CommitmentTail(t.commitment));
      HeadBytes(t.commitment, code);
      TailBytes(t.commitment);
      CodeTold(t.capability);
    }
  }

  /** Two tokens share a capability code only if their capabilities are equal or both unknown. */
  lemma {:induction false} CapabilityTold(i: TokenInfo, a: seq<byte>, s: TokenData, b: seq<byte>, t: TokenData)
    requires WellFormed(s) && WellFormed(t) && TokenBytes(i, a, s) && TokenBytes(i, b, t)
    ensures s.capability == t.capability || (HasCode(s.capability, 0) && HasCode(t.capability, 0))
    ensures s.commitment == t.commitment && s.category == t.category && s.amount == t.amount
  {
    hide FromNat, ToNat;
    var head, tail, c, d := FromNat(i.head, 32), FromNat(i.tail, 32), s.commitment, t.commitment;
    forall k | 0 <= k < |c|
      ensures c[k] == d[k]
    {
      if k < 8 {
        assert head[24 + k] == c[k] && head[24 + k] == d[k];
      } else {
        assert tail[k - 8] == c[k] && tail[k - 8] == d[k];
      }
    }
  }

  lemma {:induction false} CopiedTwice(address: seq<byte>, low: seq<byte>)
    requires |low| == 12
    ensures Copied(Copied(Zeros(32), 0, Take(address, 20)), 20, low) == Slot20(address) + low
  {
  }

  /** The two copies that fill an address word. */
  method FillAddressAmount(address: seq<byte>, amount: nat) returns (word: nat)
    ensures word == ToNat(AddressAmount(address, amount))
  {
    var buffer := new byte[32](_ => 0);
    assert buffer[..] == Zeros(32);
    Copy(buffer, 0, Take(address, 20));
    var low := FromNat(amount, 20)[8..];
    Copy(buffer, 20, low);
    CopiedTwice(address, low);
    LowBytes(amount, 8, 12);
    word := ToNat(buffer[..]);
  }

  method FillHead(commitment: seq<byte>, capability: byte) returns (head: array<byte>)
    requires |commitment| <= 40
    ensures head[..] == CommitmentHead(commitment, capability)
  {
    head := new byte[32](_ => 0);
    head[0] := |commitment| as byte;
    head[1] := capability;
    assert head[..] == [|commitment| as byte, capability] + Zeros(30);
    Copy(head, 24, commitment);
  }

  method FillTail(commitment: seq<byte>) returns (tail: array<byte>)
    requires |commitment| <= 40
    ensures tail[..] == CommitmentTail(commitment)
  {
    tail := new byte[32](_ => 0);
    assert tail[..] == Zeros(32);
    if |commitment| > 8 {
      Copy(tail, 0, commitment[8..]);
    }
  }

  /** buildTokenInfo: fills the four 32-byte buffers in place. */
  method BuildTokenInfo(address: seq<byte>, t: TokenData) returns (r: Option<TokenInfo>)
    ensures r == TokenInfoOf(address, t)
    ensures r.Some? <==> WellFormed(t)
    ensures r.Some? ==> TokenBytes(r.value, address, t)
  {
    TokenBytesOf(address, t);
    hide TokenBytes;
    if t.amount.None? || !Int64(t.amount.value) {
      return None;
    }
    var amount := FillAddressAmount(address, ToUint64(t.amount.value));
    if t.category.None? || |t.category.value| != 32 {
      return None;
    }
    if |t.commitment| > 40 {
      return None;
    }
    var head := FillHead(t.commitment, CapabilityCode(t.capability));
    var tail := FillTail(t.commitment);
    return Some(TokenInfo(amount, ToNat(t.category.value), ToNat(head[..]), ToNat(tail[..])));
  }
}
