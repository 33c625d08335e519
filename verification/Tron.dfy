/** TRON addresses and the data of a TRC-20 transfer. */
module Tron {
  import opened Wrappers
  import opened Radix
  import opened Base58

  // ---- hexadecimal ----

  predicate IsHex(c: char) {
    '0' <= c <= '9' || 'a' <= c <= 'f' || 'A' <= c <= 'F'
  }

  function HexValue(c: char): (v: nat)
    requires IsHex(c)
    ensures v < 16
  {
    if c <= '9' then (c - '0') as nat else if c <= 'F' then (c - 'A') as nat + 10 else (c - 'a') as nat + 10
  }

  function HexChar(v: nat): (c: char)
    requires v < 16
    ensures IsHex(c) && HexValue(c) == v
  {
    if v < 10 then '0' + v as char else 'a' + (v - 10) as char
  }

  /** Lower-case hexadecimal, two characters a byte. */
  function HexEncode(b: Bytes): (s: string)
    ensures |s| == 2 * |b| && forall i :: 0 <= i < |s| ==> IsHex(s[i])
  {
    if b == [] then [] else [HexChar(b[0] / 16), HexChar(b[0] % 16)] + HexEncode(b[1..])
  }

  /** Both cases are read; an odd length or any other character is refused. */
  function HexDecode(s: string): Option<Bytes> {
    if s == [] then Some([])
    else if |s| == 1 || !IsHex(s[0]) || !IsHex(s[1]) then None
    else
      match HexDecode(s[2..])
      case None => None
      case Some(b) => Some([HexValue(s[0]) * 16 + HexValue(s[1])] + b)
  }

  lemma {:induction false} HexRoundTrip(b: Bytes)
    ensures HexDecode(HexEncode(b)) == Some(b)
    decreases |b|
  {
    if b != [] {
      HexRoundTrip(b[1..]);
      assert HexEncode(b)[2..] == HexEncode(b[1..]);
      assert b == [b[0]] + b[1..];
    }
  }

  /** The digits are the usual ones, and letters are read in both cases. */
  lemma HexDigits(v: nat)
    requires v < 16
    ensures HexChar(v) == "0123456789abcdef"[v] && HexValue("0123456789ABCDEF"[v]) == v
  {
  }

  /** Exactly the texts of digit pairs are read. */
  lemma {:induction false} HexAccepted(s: string)
    ensures HexDecode(s).Some? <==> |s| % 2 == 0 && forall i :: 0 <= i < |s| ==> IsHex(s[i])
    decreases |s|
  {
    hide IsHex, HexValue;
    if |s| >= 2 {
      HexAccepted(s[2..]);
      assert forall i :: 2 <= i < |s| ==> s[i] == s[2..][i - 2];
    }
  }

  /** Each pair is read as one byte. */
  lemma {:induction false} HexExact(s: string, k: nat)
    requires HexDecode(s).Some? && k < |HexDecode(s).value|
    ensures 2 * |HexDecode(s).value| == |s| && IsHex(s[2 * k]) && IsHex(s[2 * k + 1])
    ensures HexDecode(s).value[k] == HexValue(s[2 * k]) * 16 + HexValue(s[2 * k + 1])
    decreases |s|
  {
    hide IsHex, HexValue;
    if k > 0 {
      HexExact(s[2..], k - 1);
    } else if |s| > 2 && HexDecode(s[2..]).value != [] {
      HexExact(s[2..], 0);
    }
  }

  function Strip0x(s: string): string {
    if |s| >= 2 && s[..2] == "0x" then s[2..] else s
  }

  lemma NoPrefix(b: Bytes)
    ensures Strip0x(HexEncode(b)) == HexEncode(b)
  {
  }

  // ---- addresses ----

  const ADDRESS_BYTES := 21

  function Base58ToHex(hash: Bytes -> Digest, address: string): string {
    var payload := CheckDecode(hash, address);
    if payload.None? || |payload.value| != ADDRESS_BYTES then "" else HexEncode(payload.value)
  }

  function HexToBase58(hash: Bytes -> Digest, hex: string): string {
    var payload := HexDecode(Strip0x(hex));
    if payload.None? || |payload.value| != ADDRESS_BYTES then "" else CheckEncode(hash, payload.value)
  }

  /** The two forms of a 21-byte address turn into each other. */
  lemma AddressForms(hash: Bytes -> Digest, payload: Bytes)
    requires |payload| == ADDRESS_BYTES
    ensures Base58ToHex(hash, CheckEncode(hash, payload)) == HexEncode(payload)
    ensures HexToBase58(hash, HexEncode(payload)) == CheckEncode(hash, payload)
  {
    hide CheckEncode, CheckDecode, HexEncode, HexDecode, Strip0x;
    CheckRoundTrip(hash, payload);
    HexRoundTrip(payload);
    NoPrefix(payload);
  }

  /** Every text accepted as an address comes back from its hexadecimal form. */
  lemma AddressText(hash: Bytes -> Digest, address: string)
    ensures Base58ToHex(hash, address) != "" ==> HexToBase58(hash, Base58ToHex(hash, address)) == address
  {
    hide CheckEncode, CheckDecode, HexEncode, HexDecode, Strip0x;
    if Base58ToHex(hash, address) != "" {
      var payload := CheckDecode(hash, address).value;
      CheckAccepted(hash, address);
      AddressForms(hash, payload);
    }
  }

  /** A hexadecimal address is read with and without its prefix. */
  lemma PrefixFree(hash: Bytes -> Digest, payload: Bytes)
    ensures HexToBase58(hash, "0x" + HexEncode(payload)) == HexToBase58(hash, HexEncode(payload))
  {
    hide HexEncode, HexDecode;
    assert ("0x" + HexEncode(payload))[2..] == HexEncode(payload);
    NoPrefix(payload);
  }

  // ---- TRC-20 transfers ----

  const SELECTOR: Bytes := [0xa9, 0x05, 0x9c, 0xbb]

  /** A hexadecimal address as a 32-byte word: its prefix byte dropped, 20 bytes kept, zeros in front. */
  function LeftPad20(hex: string): (w: Bytes)
    ensures |w| == 32
  {
    var b := HexDecode(Strip0x(hex));
    if b.None? || |b.value| < ADDRESS_BYTES then Zeros(32) else Zeros(12) + b.value[1..21]
  }

  /** At most 32 bytes as a 32-byte word. */
  function LeftPad32(b: Bytes): (w: Bytes)
    requires |b| <= 32
    ensures |w| == 32
  {
    Zeros(32 - |b|) + b
  }

  /** The shortest big-endian bytes of an amount. */
  function AmountBytes(n: nat): Bytes {
    RepDigits(n, 256);
    Rep(n, 256)
  }

  /** The call data of `transfer(address,uint256)`. */
  function TransferData(hex: string, amount: nat): string
    requires |AmountBytes(amount)| <= 32
  {
    HexEncode(SELECTOR + LeftPad20(hex) + LeftPad32(AmountBytes(amount)))
  }

  function ParseTransfer(data: string): Option<(Bytes, nat)> {
    var raw := HexDecode(data);
    if raw.None? || |raw.value| < 4 + 32 + 32 then None
    else if raw.value[..4] != SELECTOR then None
    else Some((raw.value[16..36], Num(raw.value[36..68], 256)))
  }

  /** Exactly which data are read as a transfer, and as which. */
  lemma ParsedExact(raw: Bytes)
    ensures ParseTransfer(HexEncode(raw)) ==
      if |raw| >= 68 && raw[..4] == [0xa9, 0x05, 0x9c, 0xbb] then Some((raw[16..36], Num(raw[36..68], 256))) else None
  {
    hide HexEncode, HexDecode, Num;
    HexRoundTrip(raw);
  }

  /** The word of an address: its bytes after the prefix, twenty of them, behind zeros. */
  lemma AddressWord(payload: Bytes)
    requires |payload| >= ADDRESS_BYTES
    ensures LeftPad20(HexEncode(payload)) == Zeros(12) + payload[1..ADDRESS_BYTES]
  {
    hide HexEncode, HexDecode, Strip0x;
    HexRoundTrip(payload);
    NoPrefix(payload);
  }

  lemma AmountWord(amount: nat)
    requires |AmountBytes(amount)| <= 32
    ensures Num(LeftPad32(AmountBytes(amount)), 256) == amount
  {
    hide Num, Rep;
    NumZeros(32 - |AmountBytes(amount)|, AmountBytes(amount), 256);
    RepDigits(amount, 256);
  }

  /** Where the parser looks in data made of three parts. */
  lemma PartsParse(word: Bytes, tail: Bytes)
    requires |word| == 32 == |tail|
    ensures ParseTransfer(HexEncode(SELECTOR + word + tail)) == Some((word[12..], Num(tail, 256)))
  {
    hide HexEncode, Num, ParseTransfer;
    var raw: Bytes := SELECTOR + word + tail;
    ParsedExact(raw);
    assert raw[..4] == SELECTOR && raw[16..36] == word[12..] && raw[36..68] == tail;
  }

  /** The parser finds the receiver and the amount the builder put in; bytes behind the address are dropped. */
  lemma TransferRoundTrip(payload: Bytes, amount: nat)
    requires |payload| >= ADDRESS_BYTES && |AmountBytes(amount)| <= 32
    ensures ParseTransfer(TransferData(HexEncode(payload), amount)) == Some((payload[1..ADDRESS_BYTES], amount))
  {
    hide HexEncode, HexDecode, Strip0x, Num, AmountBytes, ParseTransfer, LeftPad20, LeftPad32;
    AddressWord(payload);
    AmountWord(amount);
    var word := LeftPad20(HexEncode(payload));
    PartsParse(word, LeftPad32(AmountBytes(amount)));
    assert word[12..] == payload[1..ADDRESS_BYTES];
  }

  /**
   The built data are the selector of `transfer(address,uint256)`, twelve zeros, the twenty
   bytes of the address, and the amount as 32 bytes, high end first.
   */
  lemma TransferBytes(payload: Bytes, amount: nat) returns (word: Bytes)
    requires |payload| == ADDRESS_BYTES && |AmountBytes(amount)| <= 32
    ensures |word| == 32 && Num(word, 256) == amount
    ensures HexDecode(TransferData(HexEncode(payload), amount))
         == Some([0xa9, 0x05, 0x9c, 0xbb] + Zeros(12) + payload[1..] + word)
  {
    hide HexEncode, HexDecode, Strip0x, Num, AmountBytes, LeftPad20, LeftPad32;
    word := LeftPad32(AmountBytes(amount));
    AddressWord(payload);
    AmountWord(amount);
    assert payload[1..ADDRESS_BYTES] == payload[1..];
    HexRoundTrip(SELECTOR + (Zeros(12) + payload[1..]) + word);
    assert SELECTOR + (Zeros(12) + payload[1..]) + word == [0xa9, 0x05, 0x9c, 0xbb] + Zeros(12) + payload[1..] + word;
  }

  /** An address that cannot be read, or is too short, becomes twenty zeros: the transfer goes to nobody. */
  lemma TransferToNobody(hex: string, amount: nat)
    requires HexDecode(Strip0x(hex)).None? || |HexDecode(Strip0x(hex)).value| < ADDRESS_BYTES
    requires |AmountBytes(amount)| <= 32
    ensures ParseTransfer(TransferData(hex, amount)) == Some((Zeros(20), amount))
  {
    hide HexEncode, HexDecode, Strip0x, Num, AmountBytes, ParseTransfer, LeftPad32;
    AmountWord(amount);
    PartsParse(Zeros(32), LeftPad32(AmountBytes(amount)));
    assert Zeros(32)[12..] == Zeros(20);
  }

  /** The receiver as the block scanner shows it: the usual prefix byte put back in front. */
  function ScannedReceiver(hash: Bytes -> Digest, data: string): Option<string> {
    match ParseTransfer(data)
    case None => None
    case Some((to, _)) => Some(HexToBase58(hash, HexEncode([0x41] + to)))
  }

  /** A transfer built for an address is scanned back as that address exactly when its prefix byte is 0x41. */
  lemma ScannedExact(hash: Bytes -> Digest, address: string, amount: nat)
    requires CheckDecode(hash, address).Some? && |CheckDecode(hash, address).value| == ADDRESS_BYTES
    requires |AmountBytes(amount)| <= 32
    ensures var payload := CheckDecode(hash, address).value;
      ScannedReceiver(hash, TransferData(Base58ToHex(hash, address), amount)) == Some(address) <==> payload[0] == 0x41
  {
    hide CheckEncode, CheckDecode, HexEncode, HexDecode, Strip0x, TransferData, ParseTransfer, HexToBase58;
    var payload := CheckDecode(hash, address).value;
    var shown: Bytes := [0x41] + payload[1..];
    CheckAccepted(hash, address);
    TransferRoundTrip(payload, amount);
    assert payload[1..ADDRESS_BYTES] == payload[1..];
    AddressForms(hash, shown);
    CheckRoundTrip(hash, shown);
    assert payload == [payload[0]] + payload[1..];
    assert shown[0] == 0x41;
  }
}
