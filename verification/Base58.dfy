/** Base58 and Base58Check: the radix conversion between bytes and the 58 letters, with its checksum. */
module Base58 {
  import opened Wrappers
  import opened Radix

  type Bytes = ds: seq<nat> | Below(ds, 256) witness []

  /** The letters in the order of their digits: no zero, capital O, capital I or small l. */
  function Alphabet(): string {
    "123456789" + "ABCDEFGH" + "JKLMN" + "PQRSTUVWXYZ" + "abcdefghijk" + "mnopqrstuvwxyz"
  }

  ghost predicate Rising(s: string) { forall i, j :: 0 <= i < j < |s| ==> s[i] < s[j] }

  ghost predicate Within(s: string, low: char, high: char) { forall i :: 0 <= i < |s| ==> low <= s[i] <= high }

  lemma Join(s: string, t: string, low: char, mid: char, mid': char, high: char)
    requires Rising(s) && Rising(t) && Within(s, low, mid) && Within(t, mid', high)
    requires low <= mid < mid' <= high
    ensures Rising(s + t) && Within(s + t, low, high)
  {
  }

  lemma FirstRise()
    ensures Rising("123456789") && Within("123456789", '1', '9')
    ensures Rising("ABCDEFGH") && Within("ABCDEFGH", 'A', 'H') && Rising("JKLMN") && Within("JKLMN", 'J', 'N')
  {
  }

  lemma CapitalsRise()
    ensures Rising("PQRSTUVWXYZ") && Within("PQRSTUVWXYZ", 'P', 'Z')
  {
  }

  lemma SmallsRise()
    ensures Rising("abcdefghijk") && Within("abcdefghijk", 'a', 'k')
  {
  }

  lemma LastRise()
    ensures Rising("mnopqrstuvwxyz") && Within("mnopqrstuvwxyz", 'm', 'z')
  {
  }

  /** The letters are distinct: they stand in the order of their codes. */
  lemma AlphabetRises()
    ensures |Alphabet()| == 58 && Rising(Alphabet()) && Alphabet()[0] == '1'
  {
    hide Rising, Within;
    FirstRise();
    CapitalsRise();
    SmallsRise();
    LastRise();
    Join("123456789", "ABCDEFGH", '1', '9', 'A', 'H');
    Join("123456789" + "ABCDEFGH", "JKLMN", '1', 'H', 'J', 'N');
    Join("123456789" + "ABCDEFGH" + "JKLMN", "PQRSTUVWXYZ", '1', 'N', 'P', 'Z');
    Join("123456789" + "ABCDEFGH" + "JKLMN" + "PQRSTUVWXYZ", "abcdefghijk", '1', 'Z', 'a', 'k');
    Join("123456789" + "ABCDEFGH" + "JKLMN" + "PQRSTUVWXYZ" + "abcdefghijk", "mnopqrstuvwxyz", '1', 'k', 'm', 'z');
  }

  lemma InPart(c: char, s: string, low: char, high: char)
    requires Rising(s) && Within(s, low, high) && s != [] && |s| == high as int - low as int + 1
    ensures c in s <==> low <= c <= high
  {
    hide Rising, Within;
    if low <= c <= high {
      AtIndex(s, low, high, c as int - low as int);
    }
    Inside(c, s, low, high);
  }

  lemma Inside(c: char, s: string, low: char, high: char)
    requires Within(s, low, high)
    ensures c in s ==> low <= c <= high
  {
  }

  /** Letters that rise and fill their range stand one after the other. */
  lemma {:induction false} AtIndex(s: string, low: char, high: char, k: nat)
    requires Rising(s) && Within(s, low, high) && |s| == high as int - low as int + 1 && k < |s|
    ensures s[k] as int == low as int + k
  {
    LowerBound(s, low, high, k);
    UpperBound(s, low, high, k);
  }

  lemma {:induction false} LowerBound(s: string, low: char, high: char, k: nat)
    requires Rising(s) && Within(s, low, high) && k < |s|
    ensures s[k] as int >= low as int + k
  {
    if k > 0 {
      LowerBound(s, low, high, k - 1);
    }
  }

  lemma {:induction false} UpperBound(s: string, low: char, high: char, k: nat)
    requires Rising(s) && Within(s, low, high) && k < |s|
    ensures s[k] as int <= high as int - (|s| - 1 - k)
    decreases |s| - k
  {
    if k < |s| - 1 {
      UpperBound(s, low, high, k + 1);
    }
  }

  /** The letters are all digits and letters but four that look alike. */
  lemma AlphabetIs(c: char)
    ensures c in Alphabet() <==>
      ('1' <= c <= '9') || ('A' <= c <= 'Z' && c != 'I' && c != 'O') || ('a' <= c <= 'z' && c != 'l')
  {
    hide Rising, Within;
    FirstRise();
    CapitalsRise();
    SmallsRise();
    LastRise();
    InPart(c, "123456789", '1', '9');
    InPart(c, "ABCDEFGH", 'A', 'H');
    InPart(c, "JKLMN", 'J', 'N');
    InPart(c, "PQRSTUVWXYZ", 'P', 'Z');
    InPart(c, "abcdefghijk", 'a', 'k');
    InPart(c, "mnopqrstuvwxyz", 'm', 'z');
  }

  // ---- letters and digits ----

  predicate Spelled(s: string) {
    forall i :: 0 <= i < |s| ==> s[i] in Alphabet()
  }

  function Spell(ds: seq<nat>): (s: string)
    requires Below(ds, 58)
    ensures |s| == |ds| && forall i :: 0 <= i < |ds| ==> s[i] == Letter(ds[i])
  {
    seq(|ds|, i requires 0 <= i < |ds| => Letter(ds[i]))
  }

  function Letter(d: nat): char
    requires d < 58
  {
    AlphabetRises();
    Alphabet()[d]
  }

  /** `indexOfB58`: the digit of a letter, or -1. */
  method IndexOf(c: char) returns (k: int)
    ensures k == (if c in Alphabet() then Digit(c) else -1)
  {
    hide Alphabet, Rising, Digit;
    AlphabetRises();
    for i := 0 to |Alphabet()|
      invariant c !in Alphabet()[..i]
    {
      if Alphabet()[i] == c {
        DigitIs(i);
        return i;
      }
    }
    return -1;
  }

  function Digit(c: char): (d: nat)
    requires c in Alphabet()
    ensures d < 58 && Letter(d) == c
  {
    AlphabetRises();
    DigitUnique(c);
    var d: nat :| d < |Alphabet()| && Alphabet()[d] == c;
    d
  }

  lemma DigitUnique(c: char)
    requires c in Alphabet()
    ensures exists d: nat :: d < |Alphabet()| && Alphabet()[d] == c
    ensures forall d: nat, d': nat ::
      d < |Alphabet()| && d' < |Alphabet()| && Alphabet()[d] == c && Alphabet()[d'] == c ==> d == d'
  {
    hide Alphabet;
    AlphabetRises();
    var d :| 0 <= d < |Alphabet()| && Alphabet()[d] == c;
  }

  lemma DigitIs(d: nat)
    requires d < 58
    ensures Letter(d) in Alphabet() && Digit(Letter(d)) == d
  {
    hide Alphabet;
    AlphabetRises();
    DigitUnique(Letter(d));
  }

  function Read(s: string): (ds: seq<nat>)
    requires Spelled(s)
    ensures |ds| == |s| && Below(ds, 58) && forall i :: 0 <= i < |s| ==> ds[i] == Digit(s[i])
  {
    seq(|s|, i requires 0 <= i < |s| => Digit(s[i]))
  }

  lemma ReadSpell(ds: seq<nat>)
    requires Below(ds, 58)
    ensures Spelled(Spell(ds)) && Read(Spell(ds)) == ds
  {
    hide Alphabet, Letter, Digit;
    forall i | 0 <= i < |ds|
      ensures Spell(ds)[i] in Alphabet() && Digit(Spell(ds)[i]) == ds[i]
    {
      DigitIs(ds[i]);
    }
  }

  lemma SpellRead(s: string)
    requires Spelled(s)
    ensures Spell(Read(s)) == s
  {
  }

  // ---- the codec ----

  function Encode(input: Bytes): string {
    RecodeInverse(input, 256, 58);
    Spell(Recode(input, 256, 58))
  }

  function Decode(s: string): Option<Bytes> {
    if !Spelled(s) then None
    else
      RecodeInverse(Read(s), 58, 256);
      Some(Recode(Read(s), 58, 256))
  }

  /** Every byte string survives encoding and decoding, leading zero bytes included. */
  lemma DecodeEncode(input: Bytes)
    ensures Decode(Encode(input)) == Some(input)
  {
    hide Alphabet, Recode, Spell, Read, Spelled;
    RecodeInverse(input, 256, 58);
    ReadSpell(Recode(input, 256, 58));
  }

  /** Exactly the texts over the alphabet decode, and each is the encoding of what it decodes to. */
  lemma EncodeDecode(s: string)
    ensures Decode(s).Some? <==> Spelled(s)
    ensures Decode(s).Some? ==> Encode(Decode(s).value) == s
  {
    hide Alphabet, Recode, Spell, Read, Spelled;
    if Spelled(s) {
      RecodeInverse(Read(s), 58, 256);
      SpellRead(s);
    }
  }

  /** Read in radix 58 the text is the number the bytes are, with a leading one for every leading zero. */
  lemma EncodeValue(input: Bytes)
    ensures var s := Encode(input);
      && Spelled(s) && Num(Read(s), 58) == Num(input, 256) && Lead(Read(s)) == Lead(input)
  {
    hide Alphabet, Recode, Spell, Read, Spelled, Num, Lead;
    RecodeInverse(input, 256, 58);
    ReadSpell(Recode(input, 256, 58));
    RecodeValue(input, 256, 58);
  }

  // ---- the loops ----

  function Reversed(s: seq<char>): (r: seq<char>)
    ensures |r| == |s| && forall i :: 0 <= i < |s| ==> r[i] == s[|s| - 1 - i]
  {
    seq(|s|, i requires 0 <= i < |s| => s[|s| - 1 - i])
  }

  method Reverse(a: array<char>)
    modifies a
    ensures a[..] == Reversed(old(a[..]))
  {
    var i, j := 0, a.Length - 1;
    while i < j
      invariant 0 <= i <= a.Length && j == a.Length - 1 - i
      invariant forall k :: 0 <= k < i || (j < k < a.Length) ==> a[k] == old(a[a.Length - 1 - k])
      invariant forall k :: i <= k <= j ==> a[k] == old(a[k])
    {
      a[i], a[j] := a[j], a[i];
      i, j := i + 1, j - 1;
    }
  }

  lemma RepBelow(n: nat, base: nat)
    requires base >= 2
    ensures Below(Rep(n, base), base)
  {
    RepDigits(n, base);
  }

  function Letters(n: nat): string {
    RepBelow(n, 58);
    Spell(Rep(n, 58))
  }

  /** The digits of a number, lowest first. */
  method LowDigits(n: nat) returns (out: seq<char>)
    ensures Reversed(out) == Letters(n)
  {
    hide Alphabet, Letters;
    var x := n;
    out := [];
    while x > 0
      invariant Letters(n) == Letters(x) + Reversed(out)
    {
      LettersStep(x);
      AlphabetRises();
      var d := x % 58;
      ghost var before := out;
      out := out + [Alphabet()[d]];
      assert Reversed(out) == [Alphabet()[d]] + Reversed(before);
      assert Letters(n) == (Letters(x / 58) + [Letter(d)]) + Reversed(before);
      x := x / 58;
    }
    LettersNone();
  }

  lemma LettersNone()
    ensures Letters(0) == []
  {
  }

  lemma LettersStep(x: nat)
    requires x > 0
    ensures x / 58 < x && Letters(x) == Letters(x / 58) + [Letter(x % 58)]
  {
  }

  method B58Encode(input: Bytes) returns (s: string)
    ensures s == Encode(input)
  {
    hide Alphabet, Spell, Rep, Num, Below, Recode, Encode, Letters;
    var out := LowDigits(Num(input, 256));
    ghost var digits := out;
    var i := 0;
    while i < |input| && input[i] == 0
      invariant 0 <= i <= |input| && out == digits + Ones(i)
      invariant forall k :: 0 <= k < i ==> input[k] == 0
    {
      out := out + ['1'];
      i := i + 1;
    }
    LeadIs(input, i);
    var a := new char[|out|](k requires 0 <= k < |out| => out[k]);
    assert a[..] == out;
    Reverse(a);
    s := a[..];
    EncodedParts(input, digits);
  }

  function Ones(k: nat): (s: string)
    ensures |s| == k && forall i :: 0 <= i < k ==> s[i] == '1'
  {
    seq(k, _ => '1')
  }

  lemma EncodedParts(input: Bytes, digits: seq<char>)
    requires Reversed(digits) == Letters(Num(input, 256))
    ensures Encode(input) == Reversed(digits + Ones(Lead(input)))
  {
  }

  method B58Decode(s: string) returns (r: Option<Bytes>)
    ensures r == Decode(s)
  {
    hide Alphabet, Digit, Spelled, Read, Num, Rep, Below, Recode, Lead;
    var x := 0;
    SpelledPrefix(s, 0);
    for i := 0 to |s|
      invariant Spelled(s[..i]) && x == Num(Read(s[..i]), 58)
    {
      var d := IndexOf(s[i]);
      SpelledPrefix(s, i);
      if d < 0 {
        return None;
      }
      x := x * 58 + d;
    }
    assert s[..|s|] == s;
    var zeros := 0;
    while zeros < |s| && s[zeros] == '1'
      invariant 0 <= zeros <= |s|
      invariant forall k :: 0 <= k < zeros ==> s[k] == '1'
    {
      zeros := zeros + 1;
    }
    LeadingOnes(s, zeros);
    RecodeInverse(Read(s), 58, 256);
    RecodeIs(Read(s));
    return Some(Zeros(zeros) + Rep(x, 256));
  }

  lemma RecodeIs(ds: seq<nat>)
    ensures Recode(ds, 58, 256) == Zeros(Lead(ds)) + Rep(Num(ds, 58), 256)
  {
  }

  /** Reading one letter more. */
  lemma SpelledPrefix(s: string, i: nat)
    requires i <= |s|
    ensures i == 0 ==> Spelled(s[..i]) && Num(Read(s[..i]), 58) == 0
    ensures i < |s| && s[i] !in Alphabet() ==> !Spelled(s)
    ensures i < |s| && s[i] in Alphabet() && Spelled(s[..i]) ==>
      Spelled(s[..i + 1]) && Num(Read(s[..i + 1]), 58) == Num(Read(s[..i]), 58) * 58 + Digit(s[i])
  {
    hide Alphabet, Digit;
    if i < |s| && s[i] in Alphabet() && Spelled(s[..i]) {
      var t := s[..i + 1];
      assert Spelled(t);
      assert Read(t)[..i] == Read(s[..i]);
    }
  }

  /** Leading ones of a text are the leading zeros of its digits. */
  lemma LeadingOnes(s: string, k: nat)
    requires Spelled(s) && k <= |s|
    requires (forall i :: 0 <= i < k ==> s[i] == '1') && (k < |s| ==> s[k] != '1')
    ensures Lead(Read(s)) == k
  {
    hide Alphabet, Digit, Lead;
    AlphabetRises();
    DigitIs(0);
    var ds := Read(s);
    assert k < |s| ==> Letter(ds[k]) == s[k];
    LeadIs(ds, k);
  }

  // ---- Base58Check ----

  type Digest = d: Bytes | |d| == 32 witness Zeros(32)

  /** The first four bytes of the payload hashed twice. */
  function Checksum(hash: Bytes -> Digest, payload: Bytes): (c: Bytes)
    ensures |c| == 4
  {
    hash(hash(payload))[..4]
  }

  function CheckEncode(hash: Bytes -> Digest, payload: Bytes): string {
    Encode(payload + Checksum(hash, payload))
  }

  function CheckDecode(hash: Bytes -> Digest, s: string): Option<Bytes> {
    match Decode(s)
    case None => None
    case Some(full) =>
      if |full| < 5 then None
      else
        var payload := full[..|full| - 4];
        if full[|full| - 4..] == Checksum(hash, payload) then Some(payload) else None
  }

  /** Whatever the hash, a payload survives exactly when it is not empty: the decoder wants five bytes. */
  lemma CheckRoundTrip(hash: Bytes -> Digest, payload: Bytes)
    ensures CheckDecode(hash, CheckEncode(hash, payload)) == if payload == [] then None else Some(payload)
  {
    hide Encode, Decode, Checksum;
    var full := payload + Checksum(hash, payload);
    DecodeEncode(full);
    assert full[..|full| - 4] == payload && full[|full| - 4..] == Checksum(hash, payload);
  }

  /** Behind the payload stand the first four bytes of its hash hashed again, and nothing else. */
  lemma CheckBytes(hash: Bytes -> Digest, payload: Bytes)
    ensures Decode(CheckEncode(hash, payload)) == Some(payload + hash(hash(payload))[..4])
  {
    hide Encode, Decode;
    DecodeEncode(payload + hash(hash(payload))[..4]);
  }

  /** An accepted text is the one encoding of its payload. */
  lemma CheckAccepted(hash: Bytes -> Digest, s: string)
    requires CheckDecode(hash, s).Some?
    ensures CheckDecode(hash, s).value != [] && CheckEncode(hash, CheckDecode(hash, s).value) == s
  {
    hide Encode, Decode, Checksum;
    EncodeDecode(s);
    var full := Decode(s).value;
    assert full == full[..|full| - 4] + full[|full| - 4..];
  }

  method B58CheckDecode(hash: Bytes -> Digest, s: string) returns (r: Option<Bytes>)
    ensures r == CheckDecode(hash, s)
  {
    hide Decode, Checksum;
    var decoded := B58Decode(s);
    if decoded.None? {
      return None;
    }
    var full := decoded.value;
    if |full| < 5 {
      return None;
    }
    var payload, given := full[..|full| - 4], full[|full| - 4..];
    var computed := Checksum(hash, payload);
    for i := 0 to 4
      invariant forall k :: 0 <= k < i ==> given[k] == computed[k]
    {
      if given[i] != computed[i] {
        return None;
      }
    }
    assert given == computed;
    return Some(payload);
  }
}
