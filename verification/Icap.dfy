/**
  Inter-exchange client addresses: account addresses and names written as international bank account numbers,
  protected by the MOD 97-10 check digits of ISO/IEC 7064 as ISO 13616-1 uses them.
 */
module Icap {

  function UpperChar(x: char): char {
    if 'a' <= x <= 'z' then ((x as int) - 32) as char else x
  }

  function Upper(s: string): (r: string)
    ensures |r| == |s| && forall i :: 0 <= i < |s| ==> r[i] == UpperChar(s[i])
  {
    seq(|s|, i requires 0 <= i < |s| => UpperChar(s[i]))
  }

  predicate IsDigit(x: char) { '0' <= x <= '9' }
  predicate IsLetter(x: char) { 'A' <= x <= 'Z' }

  /** Upper-case letters and digits only. */
  predicate IsPlain(s: string) {
    forall x :: x in s ==> IsDigit(x) || IsLetter(x)
  }

  // ---------- the number that a text stands for ----------

  /** What a character counts for; for characters before '0' this is negative, as in the program. */
  function Value(x: char): int {
    if x >= 'A' then (x as int) - ('A' as int) + 10 else (x as int) - ('0' as int)
  }

  function Weight(x: char): nat {
    if x >= 'A' then 100 else 10
  }

  function Number(s: string): int {
    if s == "" then 0 else Number(s[..|s| - 1]) * Weight(s[|s| - 1]) + Value(s[|s| - 1])
  }

  function Scale(s: string): nat {
    if s == "" then 1 else Scale(s[..|s| - 1]) * Weight(s[|s| - 1])
  }

  lemma NumberPush(s: string, x: char)
    ensures Number(s + [x]) == Number(s) * Weight(x) + Value(x) && Scale(s + [x]) == Scale(s) * Weight(x)
  {
    assert (s + [x])[..|s|] == s;
  }

  lemma {:induction false} NumberConcat(a: string, b: string)
    ensures Number(a + b) == Number(a) * Scale(b) + Number(b)
    decreases |b|
  {
    if b == "" {
      assert a + b == a;
    } else {
      var b', x := b[..|b| - 1], b[|b| - 1];
      assert a + b == a + b' + [x] && b == b' + [x];
      NumberConcat(a, b');
      NumberPush(a + b', x);
      NumberPush(b', x);
      hide Number, Scale;
      Rearranged(Number(a), Scale(b'), Number(b'), Weight(x), Value(x));
    }
  }

  lemma Rearranged(n: int, s: int, m: int, w: int, v: int)
    ensures (n * s + m) * w + v == n * (s * w) + (m * w + v)
  {
  }

  lemma {:induction false} PlainNumber(s: string)
    requires IsPlain(s)
    ensures Number(s) >= 0
  {
    if s != "" {
      PlainNumber(s[..|s| - 1]);
      assert s[|s| - 1] in s;
    }
  }

  /** The remainder with the sign of the dividend. */
  function TruncMod(n: int, m: nat): int
    requires m > 0
  {
    if n >= 0 then n % m else -((-n) % m)
  }

  /** The program's loop over the characters. */
  method Total(s: string) returns (tot: int)
    ensures tot == Number(s)
  {
    tot := 0;
    for i := 0 to |s|
      invariant tot == Number(s[..i])
    {
      var x := s[i];
      assert s[..i + 1][..i] == s[..i] && s[..i + 1][i] == x;
      if x >= 'A' {
        tot := tot * 100 + (x as int) - ('A' as int) + 10;
      } else {
        tot := tot * 10 + (x as int) - ('0' as int);
      }
    }
    assert s[..|s|] == s;
  }

  // ---------- IBANs ----------

  function CheckOf(c: string, d: string): (n: nat)
    ensures n <= 194
  {
    98 - TruncMod(Number(d + c + "00"), 97)
  }

  function DigitChar(n: nat): (x: char)
    requires n < 10
    ensures IsDigit(x) && Value(x) == n && Weight(x) == 10
  {
    (('0' as int) + n) as char
  }

  /** In decimal, with at least two digits. */
  function TwoDigits(n: nat): (s: string)
    requires n < 1000
    ensures n < 100 ==> |s| == 2 && s == [DigitChar(n / 10), DigitChar(n % 10)]
  {
    if n < 100 then [DigitChar(n / 10), DigitChar(n % 10)]
    else [DigitChar(n / 100), DigitChar(n / 10 % 10), DigitChar(n % 10)]
  }

  function Iban(c: string, d: string): string {
    Upper(c) + TwoDigits(CheckOf(Upper(c), Upper(d))) + Upper(d)
  }

  method MakeIban(c: string, d: string) returns (s: string)
    ensures s == Iban(c, d)
  {
    var c', d' := Upper(c), Upper(d);
    var tot := Total(d' + c' + "00");
    var check := 98 - TruncMod(tot, 97);
    s := c' + TwoDigits(check) + d';
  }

  datatype Parts = Parts(country: string, data: string)

  const NO_PARTS := Parts("", "")

  function FromIban(s: string): Parts {
    if |s| < 4 then NO_PARTS
    else
      var u := Upper(s);
      if Iban(u[..2], u[4..]) != u then NO_PARTS else Parts(u[..2], u[4..])
  }

  lemma UpperTwice(s: string)
    ensures Upper(Upper(s)) == Upper(s)
  {
  }

  lemma UpperConcat(a: string, b: string)
    ensures Upper(a + b) == Upper(a) + Upper(b)
  {
  }

  lemma UpperPlain(s: string)
    requires IsPlain(s)
    ensures Upper(s) == s
  {
    forall i | 0 <= i < |s| ensures UpperChar(s[i]) == s[i] { assert s[i] in s; }
  }

  lemma NumberOne(x: char)
    ensures Number([x]) == Value(x) && Scale([x]) == Weight(x)
  {
    assert [x][..0] == "";
  }

  lemma NumberTwo(x: char, y: char)
    ensures Number([x, y]) == Value(x) * Weight(y) + Value(y) && Scale([x, y]) == Weight(x) * Weight(y)
  {
    NumberOne(x);
    assert [x, y][..1] == [x];
  }

  /** The check digits: between 02 and 98, and putting them in place of the zeros makes the number 1 modulo 97. */
  lemma Checksum(c: string, d: string)
    requires IsPlain(c) && IsPlain(d)
    ensures 2 <= CheckOf(c, d) <= 98
    ensures Number(d + c + TwoDigits(CheckOf(c, d))) % 97 == 1
  {
    hide Number, Scale;
    PlainConcat(d, c);
    PlainNumber(d + c);
    NumberConcat(d + c, "00");
    NumberTwo('0', '0');
    var n := Number(d + c) * 100;
    assert Number(d + c + "00") == n;
    CheckArithmetic(n);
    RearrangedNumber(c, CheckOf(c, d), d);
  }

  lemma CheckArithmetic(n: int)
    requires n >= 0
    ensures 2 <= 98 - TruncMod(n, 97) <= 98 && (n + (98 - TruncMod(n, 97))) % 97 == 1
  {
    assert n == 97 * (n / 97) + n % 97;
    assert n + (98 - n % 97) == 97 * (n / 97 + 1) + 1;
  }

  lemma PlainConcat(a: string, b: string)
    ensures IsPlain(a) && IsPlain(b) <==> IsPlain(a + b)
  {
    forall x | x in a || x in b ensures x in a + b {}
    if IsPlain(a + b) {
      forall x | x in a ensures IsDigit(x) || IsLetter(x) { assert x in a + b; }
      forall x | x in b ensures IsDigit(x) || IsLetter(x) { assert x in a + b; }
    }
  }

  lemma DigitsPlain(k: nat)
    requires k < 100
    ensures IsPlain(TwoDigits(k)) && Upper(TwoDigits(k)) == TwoDigits(k)
  {
    UpperPlain(TwoDigits(k));
  }

  /** Reading back what was written: for every two-letter code and alphanumeric data. */
  lemma FromIbanInverts(c: string, d: string)
    requires |c| == 2 && IsPlain(Upper(c)) && IsPlain(Upper(d))
    ensures FromIban(Iban(c, d)) == Parts(Upper(c), Upper(d))
  {
    hide Number;
    var c', d' := Upper(c), Upper(d);
    Checksum(c', d');
    var k := TwoDigits(CheckOf(c', d'));
    DigitsPlain(CheckOf(c', d'));
    var s := Iban(c, d);
    UpperTwice(c);
    UpperTwice(d);
    UpperConcat(c' + k, d');
    UpperConcat(c', k);
    assert Upper(s) == s;
    assert s[..2] == c' && s[4..] == d';
  }

  /**
    The reader accepts exactly the texts whose number, rearranged, is 1 modulo 97 and whose check digits are
    the ones the writer uses: 00, 01 and 99 are refused although some of them would satisfy the congruence.
   */
  lemma AcceptedIff(c: string, k: nat, d: string)
    requires |c| == 2 && IsPlain(c) && IsPlain(d) && k < 100
    ensures FromIban(c + TwoDigits(k) + d) == Parts(c, d)
            <==> Number(d + c + TwoDigits(k)) % 97 == 1 && 2 <= k <= 98
  {
    hide Number, Scale, FromIban, TwoDigits;
    AcceptedIfCheck(c, k, d);
    Checksum(c, d);
    RearrangedNumber(c, k, d);
    RearrangedNumber(c, CheckOf(c, d), d);
    if Number(d + c + TwoDigits(k)) % 97 == 1 && 2 <= k <= 98 {
      SameResidue(Number(d + c) * 100, k, CheckOf(c, d));
    }
  }

  /** A text satisfies the congruence and is refused all the same exactly if its digits are 97 away from those the writer uses. */
  lemma RefusedThoughCongruent(c: string, k: nat, d: string)
    requires |c| == 2 && IsPlain(c) && IsPlain(d) && k < 100
    ensures Number(d + c + TwoDigits(k)) % 97 == 1 && FromIban(c + TwoDigits(k) + d) == NO_PARTS
            <==> (k == 0 && CheckOf(c, d) == 97) || (k == 1 && CheckOf(c, d) == 98) || (k == 99 && CheckOf(c, d) == 2)
  {
    hide Number, Scale, FromIban, TwoDigits, CheckOf;
    AcceptedIfCheck(c, k, d);
    Checksum(c, d);
    RearrangedNumber(c, k, d);
    RearrangedNumber(c, CheckOf(c, d), d);
    assert |Parts(c, d).country| == 2;
    NearResidue(Number(d + c) * 100, k, CheckOf(c, d));
  }

  lemma NearResidue(n: int, k: nat, l: nat)
    requires k < 100 && 2 <= l <= 98 && (n + l) % 97 == 1
    ensures (n + k) % 97 == 1 <==> k == l || k == l + 97 || l == k + 97
  {
    assert (n + k) % 97 == 1 <==> (k - l) % 97 == 0;
  }

  /** Texts of which this is so. */
  lemma CongruentTexts()
    ensures Number("27" + "XE" + "00") % 97 == 1 && FromIban("XE" + "00" + "27") == NO_PARTS
    ensures Number("9" + "XE" + "01") % 97 == 1 && FromIban("XE" + "01" + "9") == NO_PARTS
    ensures Number("88" + "XE" + "99") % 97 == 1 && FromIban("XE" + "99" + "88") == NO_PARTS
  {
    hide FromIban;
    assert Number("") == 0 && Number("2") == 2 && Number("9") == 9 && Number("8") == 8 && Number("27") == 27 && Number("88") == 88 by {
      NumberPush("", '2');
      NumberPush("", '8');
      NumberPush("", '9');
      NumberPush("2", '7');
      NumberPush("8", '8');
    }
    hide Number;
    CongruentText("27", 0, 27331400);
    CongruentText("9", 1, 9331401);
    CongruentText("88", 99, 88331499);
    assert TwoDigits(0) == "00" && TwoDigits(1) == "01" && TwoDigits(99) == "99";
  }

  lemma CongruentText(d: string, k: nat, n: nat)
    requires IsPlain(d) && (k == 0 || k == 1 || k == 99) && n % 97 == 1 && Number(d) * 1000000 + 331400 + k == n
    ensures Number(d + "XE" + TwoDigits(k)) == n && FromIban("XE" + TwoDigits(k) + d) == NO_PARTS
  {
    hide FromIban, Number;
    var s := d + "XE";
    NumberPush(d, 'X');
    NumberPush(d + "X", 'E');
    assert d + "X" + "E" == s;
    RearrangedNumber("XE", k, d);
    AcceptedIff("XE", k, d);
    AcceptedIfCheck("XE", k, d);
  }

  /** The reader compares with what the writer would have written. */
  lemma AcceptedIfCheck(c: string, k: nat, d: string)
    requires |c| == 2 && IsPlain(c) && IsPlain(d) && k < 100
    ensures FromIban(c + TwoDigits(k) + d) == if k == CheckOf(c, d) then Parts(c, d) else NO_PARTS
  {
    hide Number;
    var s := c + TwoDigits(k) + d;
    UpperPlain(c);
    UpperPlain(d);
    DigitsPlain(k);
    UpperConcat(c + TwoDigits(k), d);
    UpperConcat(c, TwoDigits(k));
    assert Upper(s) == s && s[..2] == c && s[4..] == d && s[2..4] == TwoDigits(k);
    Checksum(c, d);
    hide CheckOf;
    assert Iban(c, d)[2..4] == TwoDigits(CheckOf(c, d));
    SameDigits(k, CheckOf(c, d));
  }

  lemma SameDigits(k: nat, l: nat)
    requires k < 100 && l < 100
    ensures TwoDigits(k) == TwoDigits(l) <==> k == l
  {
    var a, b := TwoDigits(k), TwoDigits(l);
    assert Value(a[0]) * 10 + Value(a[1]) == k && Value(b[0]) * 10 + Value(b[1]) == l;
  }

  lemma RearrangedNumber(c: string, k: nat, d: string)
    requires k < 100
    ensures Number(d + c + TwoDigits(k)) == Number(d + c) * 100 + k
  {
    hide Number, Scale;
    var x, y := DigitChar(k / 10), DigitChar(k % 10);
    NumberConcat(d + c, [x, y]);
    NumberTwo(x, y);
    assert TwoDigits(k) == [x, y];
  }

  lemma SameResidue(n: int, k: nat, l: nat)
    requires (n + k) % 97 == 1 && (n + l) % 97 == 1 && 2 <= k <= 98 && 2 <= l <= 98
    ensures k == l
  {
    assert k - l == 97 * ((n + k) / 97 - (n + l) / 97);
  }

  // ---------- typing errors ----------

  /** 10 and 100 have inverses modulo 97, hence so does every scale. */
  lemma {:induction false} ScaleInverse(s: string) returns (inv: nat)
    ensures Scale(s) * inv % 97 == 1
  {
    if s == "" {
      inv := 1;
    } else {
      var r := ScaleInverse(s[..|s| - 1]);
      var w := Weight(s[|s| - 1]);
      var v: nat := if w == 10 then 68 else 65;
      inv := r * v;
      ProductInverse(Scale(s[..|s| - 1]), r, w, v);
    }
  }

  lemma ProductInverse(a: nat, r: nat, w: nat, v: nat)
    requires a * r % 97 == 1 && w * v % 97 == 1
    ensures (a * w) * (r * v) % 97 == 1
  {
    var p, q := a * r / 97, w * v / 97;
    assert a * r == 97 * p + 1 && w * v == 97 * q + 1;
    assert (a * w) * (r * v) == (a * r) * (w * v);
    assert (97 * p + 1) * (97 * q + 1) == 97 * (97 * p * q + p + q) + 1;
  }

  /** A difference between 1 and 96 stays one after scaling. */
  lemma ScaledApart(delta: int, s: string)
    requires -97 < delta < 97 && delta != 0
    ensures (delta * Scale(s)) % 97 != 0
  {
    var inv := ScaleInverse(s);
    hide Scale;
    var a := Scale(s);
    if (delta * a) % 97 == 0 { Cancelled(delta, a, inv, delta * a / 97, a * inv / 97); }
  }

  lemma Cancelled(delta: int, a: int, inv: int, t: int, q: int)
    requires delta * a == 97 * t && a * inv == 97 * q + 1
    ensures delta % 97 == 0
  {
    calc {
      delta;
      delta * (97 * q + 1) - 97 * (delta * q);
      delta * (a * inv) - 97 * (delta * q);
      (delta * a) * inv - 97 * (delta * q);
      (97 * t) * inv - 97 * (delta * q);
      97 * (t * inv - delta * q);
    }
  }

  /** Both digits or both letters, and not the same. */
  predicate Mistyped(x: char, y: char) {
    x != y && ((IsDigit(x) && IsDigit(y)) || (IsLetter(x) && IsLetter(y)))
  }

  /** One mistyped character changes the number modulo 97. */
  lemma MistypedNumber(a: string, x: char, y: char, b: string)
    requires Mistyped(x, y)
    ensures (Number(a + [x] + b) - Number(a + [y] + b)) % 97 != 0
  {
    hide Number, Scale;
    NumberConcat(a + [x], b);
    NumberConcat(a + [y], b);
    NumberConcat(a, [x]);
    NumberConcat(a, [y]);
    NumberOne(x);
    NumberOne(y);
    var delta := Value(x) - Value(y);
    assert Number(a + [x]) - Number(a + [y]) == delta;
    Distribute(Number(a + [x]), Number(a + [y]), Scale(b));
    ScaledApart(delta, b);
  }

  lemma Distribute(m: int, n: int, s: int)
    ensures m * s - n * s == (m - n) * s
  {
  }

  /** A single digit mistyped for another, or letter for another, in the data is always found out. */
  lemma MistypedRejected(c: string, d: string, i: nat, y: char)
    requires |c| == 2 && IsPlain(c) && IsPlain(d) && i < |d| && Mistyped(d[i], y)
    ensures Iban(c, d)[4 + i] == d[i]
    ensures FromIban(Iban(c, d)[4 + i := y]) == NO_PARTS
  {
    hide Number;
    UpperPlain(c);
    UpperPlain(d);
    Checksum(c, d);
    var e := d[i := y];
    var a, b := d[..i], d[i + 1..] + c + "00";
    assert d + c + "00" == a + [d[i]] + b && e + c + "00" == a + [y] + b;
    MistypedNumber(a, d[i], y, b);
    forall x | x in e ensures IsDigit(x) || IsLetter(x) { if x != y { assert x in d; } }
    assert IsPlain(e);
    Checksum(c, e);
    PlainConcat(d + c, "00");
    PlainConcat(d, c);
    PlainConcat(e + c, "00");
    PlainConcat(e, c);
    PlainNumber(d + c + "00");
    PlainNumber(e + c + "00");
    ChecksDiffer(Number(d + c + "00"), Number(e + c + "00"));
    AcceptedIfCheck(c, CheckOf(c, d), e);
    assert Iban(c, d)[4 + i := y] == c + TwoDigits(CheckOf(c, d)) + e;
  }

  lemma ChecksDiffer(m: int, n: int)
    requires (m - n) % 97 != 0
    ensures m % 97 != n % 97
  {
    assert m - n == 97 * (m / 97 - n / 97) + (m % 97 - n % 97);
  }

  // ---------- base 36 ----------

  /** Addresses have 160 bits. */
  const ADDRESSES: nat := 0x1_0000000000_0000000000_0000000000_0000000000

  function Base36Char(n: nat): (x: char)
    requires n < 36
    ensures (IsDigit(x) || IsLetter(x)) && Value(x) == n
  {
    if n < 10 then (('0' as int) + n) as char else (('A' as int) + n - 10) as char
  }

  function Base36(n: nat): (s: string)
    ensures IsPlain(s)
  {
    if n == 0 then "" else Base36(n / 36) + [Base36Char(n % 36)]
  }

  method ToBase36(n: nat) returns (s: string)
    ensures s == Base36(n)
  {
    var a := n;
    s := "";
    while a > 0
      invariant Base36(a) + s == Base36(n)
    {
      var r := a - a / 36 * 36;
      assert Base36(a) == Base36(a / 36) + [Base36Char(r)];
      s := [Base36Char(r)] + s;
      a := a / 36;
    }
  }

  /** 160-bit arithmetic. */
  function Wrap(n: int): nat {
    n % ADDRESSES
  }

  lemma WrapSmall(n: int)
    requires 0 <= n < ADDRESSES
    ensures Wrap(n) == n
  {
  }

  /** Positional value, kept within 160 bits as the program's arithmetic does. */
  function Value36(s: string): nat {
    if s == "" then 0 else Wrap(Value36(s[..|s| - 1]) * 36 + Value(s[|s| - 1]))
  }

  method FromBase36(s: string) returns (n: nat)
    ensures n == Value36(s)
  {
    n := 0;
    for i := 0 to |s|
      invariant n == Value36(s[..i])
    {
      assert s[..i + 1][..i] == s[..i];
      n := Wrap(n * 36 + Value(s[i]));
    }
    assert s[..|s|] == s;
  }

  lemma {:induction false} Base36RoundTrip(n: nat)
    requires n < ADDRESSES
    ensures Value36(Base36(n)) == n
  {
    hide Wrap;
    if n > 0 {
      Base36RoundTrip(n / 36);
      var t := Base36(n / 36);
      assert (t + [Base36Char(n % 36)])[..|t|] == t;
      WrapSmall(n / 36 * 36 + n % 36);
    } else {
      assert Base36(n) == "";
    }
  }

  function Power36(k: nat): nat {
    if k == 0 then 1 else 36 * Power36(k - 1)
  }

  lemma {:induction false} PowerSum(j: nat, k: nat)
    ensures Power36(j + k) == Power36(j) * Power36(k)
    decreases j
  {
    if j > 0 {
      PowerSum(j - 1, k);
      Associate(36, Power36(j - 1), Power36(k));
    }
  }

  lemma Associate(a: nat, b: nat, c: nat)
    ensures a * (b * c) == (a * b) * c
  {
  }

  lemma {:induction false} Base36Length(n: nat, k: nat)
    requires n < Power36(k)
    ensures |Base36(n)| <= k
  {
    if n > 0 && k > 0 { Base36Length(n / 36, k - 1); }
  }

  /** Thirty-one digits are enough for an address: 2^160 is less than 36^31. */
  lemma AddressFits()
    ensures ADDRESSES < Power36(31)
  {
    assert Power36(0) == 1;
    assert Power36(1) == 36;
    PowerSum(1, 1);
    PowerSum(2, 2);
    PowerSum(4, 4);
    PowerSum(8, 8);
    PowerSum(8, 4);
    PowerSum(12, 2);
    PowerSum(14, 1);
    PowerSum(16, 15);
  }

  // ---------- addresses ----------

  datatype Address = Invalid | Direct(address: nat) | Indirect(client: string, institution: string, asset: string)

  datatype Result<T> = Ok(value: T) | InvalidIcap

  function Zeros(n: nat): (s: string)
    ensures |s| == n && IsPlain(s)
  {
    if n == 0 then "" else "0" + Zeros(n - 1)
  }

  function Padded(d: string): (s: string)
    ensures IsPlain(d) ==> IsPlain(s)
    ensures |s| == if |d| < 30 then 30 else |d|
  {
    if |d| < 30 then Zeros(30 - |d|) + d else d
  }

  predicate IsAlnum(s: string) {
    IsPlain(Upper(s))
  }

  predicate KnownAsset(s: string) {
    Upper(s) == "XET" || Upper(s) == "ELE"
  }

  function Encoded(a: Address): Result<string> {
    match a
    case Invalid => InvalidIcap
    case Direct(n) => Ok(Iban("XE", Padded(Base36(n))))
    case Indirect(client, institution, asset) =>
      if !IsAlnum(asset) || !IsAlnum(institution) || !IsAlnum(client) || |asset| != 3 || !KnownAsset(asset)
         || |institution| != 4 || |client| != 9 then InvalidIcap
      else Ok(Iban("XE", asset + institution + client))
  }

  method Encode(a: Address) returns (r: Result<string>)
    ensures r == Encoded(a)
  {
    match a {
      case Invalid => r := InvalidIcap;
      case Direct(n) =>
        var d := ToBase36(n);
        ghost var digits := d;
        while |d| < 30
          invariant |d| < 30 ==> Zeros(30 - |d|) + d == Padded(digits)
          invariant |d| >= 30 ==> d == Padded(digits)
        {
          PadStep(30 - |d|, d);
          d := "0" + d;
        }
        var s := MakeIban("XE", d);
        r := Ok(s);
      case Indirect(client, institution, asset) =>
        if !IsAlnum(asset) || !IsAlnum(institution) || !IsAlnum(client) || |asset| != 3 || !KnownAsset(asset)
           || |institution| != 4 || |client| != 9 {
          return InvalidIcap;
        }
        var s := MakeIban("XE", asset + institution + client);
        r := Ok(s);
    }
  }

  lemma {:induction false} ZerosSnoc(n: nat)
    ensures Zeros(n + 1) == Zeros(n) + "0"
  {
    if n > 0 { ZerosSnoc(n - 1); }
  }

  lemma PadStep(n: nat, d: string)
    requires n > 0
    ensures Zeros(n) + d == Zeros(n - 1) + ("0" + d) && Zeros(0) == ""
  {
    ZerosSnoc(n - 1);
  }

  function Decoded(s: string): Result<Address> {
    var p := FromIban(s);
    if p.country != "XE" then InvalidIcap
    else if |p.data| == 30 || |p.data| == 31 then
      Ok(Direct(Value36(p.data)))
    else if |p.data| == 16 && (p.data[..3] == "XET" || p.data[..3] == "ELE") then
      Ok(Indirect(p.data[7..], p.data[3..7], p.data[..3]))
    else InvalidIcap
  }

  lemma Value36Push(s: string, x: char)
    ensures Value36(s + [x]) == Wrap(Value36(s) * 36 + Value(x))
  {
    assert (s + [x])[..|s|] == s;
  }

  lemma NoValue()
    ensures Value36("") == 0
  {
  }

  lemma {:induction false} ZerosValue(n: nat, s: string)
    ensures Value36(Zeros(n) + s) == Value36(s)
    decreases |s|, n
  {
    hide Wrap, Value36, Zeros;
    if s != "" {
      var t, x := s[..|s| - 1], s[|s| - 1];
      assert Zeros(n) + s == (Zeros(n) + t) + [x] && s == t + [x];
      ZerosValue(n, t);
      Value36Push(t, x);
      Value36Push(Zeros(n) + t, x);
    } else if n > 0 {
      ZerosSnoc(n - 1);
      assert Zeros(n) + s == Zeros(n - 1) + "0" && Zeros(n - 1) + s == Zeros(n - 1);
      ZerosValue(n - 1, s);
      Value36Push(Zeros(n - 1), '0');
      WrapSmall(0);
      assert Value36("") == 0 by { NoValue(); }
    } else {
      PadStep(1, s);
      assert Zeros(n) + s == s;
    }
  }

  /** Every 160-bit address survives being encoded and decoded, whatever its first byte. */
  lemma DirectRoundTrip(n: nat)
    requires n < ADDRESSES
    ensures Encoded(Direct(n)).Ok? && Decoded(Encoded(Direct(n)).value) == Ok(Direct(n))
  {
    hide Value36, Base36, Power36, Iban, FromIban;
    var d := Base36(n);
    AddressFits();
    Base36Length(n, 31);
    Base36RoundTrip(n);
    if |d| < 30 { ZerosValue(30 - |d|, d); }
    assert IsPlain("XE");
    UpperPlain("XE");
    UpperPlain(Padded(d));
    FromIbanInverts("XE", Padded(d));
  }

  /** Names that can be encoded come back in upper case; all others are refused. */
  lemma IndirectRoundTrip(client: string, institution: string, asset: string)
    ensures var a := Indirect(client, institution, asset);
      if IsAlnum(client) && IsAlnum(institution) && KnownAsset(asset) && |institution| == 4 && |client| == 9
      then Encoded(a).Ok? && Decoded(Encoded(a).value) == Ok(Indirect(Upper(client), Upper(institution), Upper(asset)))
      else Encoded(a).InvalidIcap?
  {
    hide Iban, FromIban;
    if IsAlnum(client) && IsAlnum(institution) && KnownAsset(asset) && |institution| == 4 && |client| == 9 {
      assert IsPlain("XET") && IsPlain("ELE") && IsPlain("XE");
      assert |asset| == |Upper(asset)| == 3;
      var d := asset + institution + client;
      UpperConcat(asset + institution, client);
      UpperConcat(asset, institution);
      PlainConcat(Upper(asset) + Upper(institution), Upper(client));
      PlainConcat(Upper(asset), Upper(institution));
      UpperPlain("XE");
      FromIbanInverts("XE", d);
      assert Upper(d)[..3] == Upper(asset) && Upper(d)[3..7] == Upper(institution) && Upper(d)[7..] == Upper(client);
    }
  }
}
