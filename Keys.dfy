/**
 * The string and byte keys under which the Player mapping stores its entities:
 * decimal renderings of ids (`BigInt.toString`), lower-case hex renderings of
 * addresses (`Bytes.toHexString`), audit-record ids (`Bytes.concatI32`) and
 * the keys of the external Name table (`"{type}-{index}"`).
 * Each rendering comes with a parser and a round-trip lemma, so that distinct
 * inputs provably never share a key.
 */
module Keys {

  /** One byte of a graph-ts `Bytes` value. */
  type Byte = x: int | 0 <= x < 256

  /** Largest value `BigInt.toI32` accepts. */
  const MaxI32: nat := 0x7fff_ffff

  // ---------------------------------------------------------------------------
  // Decimal rendering (BigInt.toString, i32.toString on non-negative values)
  // ---------------------------------------------------------------------------

  predicate IsDigit(c: char) {
    '0' <= c <= '9'
  }

  predicate AllDigits(s: string) {
    forall i :: 0 <= i < |s| ==> IsDigit(s[i])
  }

  function DigitChar(d: nat): (c: char)
    requires d < 10
    ensures IsDigit(c) && DigitValue(c) == d
  {
    ('0' as int + d) as char
  }

  function DigitValue(c: char): nat
    requires IsDigit(c)
  {
    c as int - '0' as int
  }

  /** The decimal form of `n`: at least one digit, no leading zero. */
  function DecimalString(n: nat): (r: string)
    ensures |r| > 0 && AllDigits(r)
    ensures (|r| == 1) == (n < 10)
    ensures |r| > 1 ==> r[0] != '0'
  {
    if n < 10 then [DigitChar(n)] else DecimalString(n / 10) + [DigitChar(n % 10)]
  }

  /** Reads back a string of digits, most significant first. */
  function ParseDecimal(s: string): nat
    requires AllDigits(s)
  {
    if s == [] then 0 else 10 * ParseDecimal(s[..|s| - 1]) + DigitValue(s[|s| - 1])
  }

  lemma {:induction false} DecimalRoundTrip(n: nat)
    ensures ParseDecimal(DecimalString(n)) == n
  {
    var s := DecimalString(n);
    if n < 10 {
      assert s[..|s| - 1] == [];
    } else {
      assert s[..|s| - 1] == DecimalString(n / 10);
      DecimalRoundTrip(n / 10);
    }
  }

  /** Two ids share a decimal key exactly when they are equal. */
  lemma DecimalStringInjective(m: nat, n: nat)
    ensures DecimalString(m) == DecimalString(n) <==> m == n
  {
    DecimalRoundTrip(m);
    DecimalRoundTrip(n);
  }

  // ---------------------------------------------------------------------------
  // Hex rendering of addresses (Bytes.toHexString: "0x" and lower-case digits)
  // ---------------------------------------------------------------------------

  predicate IsLowerHex(c: char) {
    '0' <= c <= '9' || 'a' <= c <= 'f'
  }

  function HexDigit(d: nat): (c: char)
    requires d < 16
    ensures IsLowerHex(c) && HexValue(c) == d
  {
    if d < 10 then ('0' as int + d) as char else ('a' as int + d - 10) as char
  }

  function HexValue(c: char): (d: nat)
    requires IsLowerHex(c)
    ensures d < 16
  {
    if c <= '9' then c as int - '0' as int else c as int - 'a' as int + 10
  }

  function HexDigits(bytes: seq<Byte>): (r: string)
    ensures |r| == 2 * |bytes|
    ensures forall i :: 0 <= i < |r| ==> IsLowerHex(r[i])
  {
    if bytes == [] then []
    else [HexDigit(bytes[0] / 16), HexDigit(bytes[0] % 16)] + HexDigits(bytes[1..])
  }

  /** The Owner key of an address: "0x" followed by two lower-case hex digits per byte. */
  function HexString(bytes: seq<Byte>): (r: string)
    ensures |r| == 2 + 2 * |bytes| && r[..2] == "0x"
    ensures forall i :: 2 <= i < |r| ==> IsLowerHex(r[i])
  {
    "0x" + HexDigits(bytes)
  }

  function ParseHexDigits(s: string): seq<Byte>
    requires |s| % 2 == 0
    requires forall i :: 0 <= i < |s| ==> IsLowerHex(s[i])
  {
    if s == [] then [] else [16 * HexValue(s[0]) + HexValue(s[1])] + ParseHexDigits(s[2..])
  }

  lemma {:induction false} HexDigitsRoundTrip(bytes: seq<Byte>)
    ensures ParseHexDigits(HexDigits(bytes)) == bytes
  {
    if bytes != [] {
      var s := HexDigits(bytes);
      assert s[2..] == HexDigits(bytes[1..]);
      HexDigitsRoundTrip(bytes[1..]);
    }
  }

  /** Two addresses share an Owner key exactly when they are equal. */
  lemma HexStringInjective(a: seq<Byte>, b: seq<Byte>)
    ensures HexString(a) == HexString(b) <==> a == b
  {
    if HexString(a) == HexString(b) {
      assert HexDigits(a) == HexString(a)[2..];
      assert HexDigits(b) == HexString(b)[2..];
      HexDigitsRoundTrip(a);
      HexDigitsRoundTrip(b);
    }
  }

  // ---------------------------------------------------------------------------
  // Audit-record ids (Bytes.concatI32: the hash, then the i32 in 4 little-endian bytes)
  // ---------------------------------------------------------------------------

  function Pow256(k: nat): (r: nat)
    ensures r > 0
  {
    if k == 0 then 1 else 256 * Pow256(k - 1)
  }

  function LittleEndian(n: nat, width: nat): (r: seq<Byte>)
    ensures |r| == width
  {
    if width == 0 then [] else [n % 256] + LittleEndian(n / 256, width - 1)
  }

  function FromLittleEndian(bytes: seq<Byte>): nat {
    if bytes == [] then 0 else bytes[0] + 256 * FromLittleEndian(bytes[1..])
  }

  lemma {:induction false} LittleEndianRoundTrip(n: nat, width: nat)
    requires n < Pow256(width)
    ensures FromLittleEndian(LittleEndian(n, width)) == n
  {
    if width > 0 {
      var r := LittleEndian(n, width);
      assert r[1..] == LittleEndian(n / 256, width - 1);
      assert n / 256 < Pow256(width - 1);
      LittleEndianRoundTrip(n / 256, width - 1);
    }
  }

  /**
   * The id of the audit record of the event at `logIndex` in the transaction
   * `txHash`. `BigInt.toI32` traps on a log index beyond the i32 range, so the
   * source cannot produce an id for one.
   */
  function AuditKey(txHash: seq<Byte>, logIndex: nat): (r: seq<Byte>)
    requires logIndex <= MaxI32
    ensures |r| == |txHash| + 4 && r[..|txHash|] == txHash
    ensures FromLittleEndian(r[|txHash|..]) == logIndex
  {
    LittleEndianRoundTrip(logIndex, 4);
    assert (txHash + LittleEndian(logIndex, 4))[|txHash|..] == LittleEndian(logIndex, 4);
    txHash + LittleEndian(logIndex, 4)
  }

  /**
   * For hashes of one length (transaction hashes are 32 bytes) the audit id
   * determines the (hash, log index) pair: two events get one id only when
   * they are the same log entry.
   */
  lemma AuditKeyInjective(h1: seq<Byte>, i1: nat, h2: seq<Byte>, i2: nat)
    requires |h1| == |h2| && i1 <= MaxI32 && i2 <= MaxI32
    ensures AuditKey(h1, i1) == AuditKey(h2, i2) <==> h1 == h2 && i1 == i2
  {
    var k1, k2 := AuditKey(h1, i1), AuditKey(h2, i2);
    if k1 == k2 {
      assert k1[|h1|..] == k2[|h2|..];
    }
  }

  // ---------------------------------------------------------------------------
  // Keys of the Name table: "{type}-{index}"
  // ---------------------------------------------------------------------------

  /** Name types: 0 reserved (high-index) first names, 1 standard first names, 2 surnames. */
  function NameKey(nameType: nat, index: nat): string {
    DecimalString(nameType) + "-" + DecimalString(index)
  }

  /** Position of the first '-' in `s`, or `|s|` when there is none. */
  function DashPosition(s: string): (r: nat)
    ensures r <= |s|
  {
    if s == [] || s[0] == '-' then 0 else 1 + DashPosition(s[1..])
  }

  lemma {:induction false} DashAfterDigits(digits: string, rest: string)
    requires AllDigits(digits)
    ensures DashPosition(digits + "-" + rest) == |digits|
  {
    if digits != [] {
      assert (digits + "-" + rest)[1..] == digits[1..] + "-" + rest;
      DashAfterDigits(digits[1..], rest);
    }
  }

  /** A Name key determines its type and its index. */
  lemma NameKeyInjective(t1: nat, i1: nat, t2: nat, i2: nat)
    ensures NameKey(t1, i1) == NameKey(t2, i2) <==> t1 == t2 && i1 == i2
  {
    var a, b, c, d := DecimalString(t1), DecimalString(i1), DecimalString(t2), DecimalString(i2);
    if NameKey(t1, i1) == NameKey(t2, i2) {
      var k := a + "-" + b;
      DashAfterDigits(a, b);
      DashAfterDigits(c, d);
      assert |a| == |c|;
      assert a == k[..|a|] == c;
      assert b == k[|a| + 1..] == d;
      DecimalStringInjective(t1, t2);
      DecimalStringInjective(i1, i2);
    }
  }

  /** The type of a first name: 0 for indices from 1000 up, 1 below. */
  function FirstNameType(index: nat): (t: nat)
    ensures t <= 1 && (t == 0 <==> index >= 1000)
  {
    if index >= 1000 then 0 else 1
  }

  /** `nameType.toString() + "-" + firstNameIndex.toString()`. */
  function FirstNameKey(index: nat): (k: string)
    ensures k == NameKey(if index >= 1000 then 0 else 1, index)
    ensures k[0] == (if index >= 1000 then '0' else '1') && k[1] == '-'
  {
    DecimalString(FirstNameType(index)) + "-" + DecimalString(index)
  }

  /** `"2-" + surnameIndex.toString()`: the literal prefix is the key of type 2. */
  function SurnameKey(index: nat): (k: string)
    ensures k == NameKey(2, index)
  {
    assert DecimalString(2) == "2";
    "2-" + DecimalString(index)
  }

  /** A first-name key is never a surname key. */
  lemma FirstNameNotSurname(i: nat, j: nat)
    ensures FirstNameKey(i) != SurnameKey(j)
  {
    NameKeyInjective(FirstNameType(i), i, 2, j);
  }

  /** Distinct first-name indices never share a Name entry, nor do distinct surname indices. */
  lemma NameKeysInjective(i: nat, j: nat)
    ensures FirstNameKey(i) == FirstNameKey(j) <==> i == j
    ensures SurnameKey(i) == SurnameKey(j) <==> i == j
  {
    NameKeyInjective(FirstNameType(i), i, FirstNameType(j), j);
    NameKeyInjective(2, i, 2, j);
  }
}
