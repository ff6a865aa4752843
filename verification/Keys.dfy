/**
 The two string keys of the caches and of the session table: the standard
 base64 of a logical session id (section 4 of RFC 4648) and the
 "<cursor id>-<collection>" key of the cursor cache. Both are injective.
 */
module Keys {

  type byte = x: int | 0 <= x < 256

  // ----------------------------------------------------------------- base64

  function Letter(v: int): (c: char)
    requires 0 <= v < 64
    ensures c != '='
  {
    if v < 26 then ('A' as int + v) as char
    else if v < 52 then ('a' as int + (v - 26)) as char
    else if v < 62 then ('0' as int + (v - 52)) as char
    else if v == 62 then '+'
    else '/'
  }

  function Base64(b: seq<byte>): string {
    if |b| == 0 then ""
    else if |b| == 1 then [Letter(b[0] / 4), Letter(b[0] % 4 * 16), '=', '=']
    else if |b| == 2 then
      [Letter(b[0] / 4), Letter(b[0] % 4 * 16 + b[1] / 16), Letter(b[1] % 16 * 4), '=']
    else
      Quad(b[0], b[1], b[2]) + Base64(b[3..])
  }

  function Quad(x: byte, y: byte, z: byte): (q: string)
    ensures |q| == 4
  {
    [Letter(x / 4), Letter(x % 4 * 16 + y / 16), Letter(y % 16 * 4 + z / 64), Letter(z % 64)]
  }

  // The alphabet of section 4 of RFC 4648, letter by letter.
  lemma LettersAre()
    ensures Quad(0, 16, 131) == "ABCD" && Quad(16, 81, 135) == "EFGH" && Quad(32, 146, 139) == "IJKL"
    ensures Quad(48, 211, 143) == "MNOP" && Quad(65, 20, 147) == "QRST" && Quad(81, 85, 151) == "UVWX"
    ensures Quad(97, 150, 155) == "YZab" && Quad(113, 215, 159) == "cdef" && Quad(130, 24, 163) == "ghij"
    ensures Quad(146, 89, 167) == "klmn" && Quad(162, 154, 171) == "opqr" && Quad(178, 219, 175) == "stuv"
    ensures Quad(195, 28, 179) == "wxyz" && Quad(211, 93, 183) == "0123" && Quad(227, 158, 187) == "4567"
    ensures Quad(243, 223, 191) == "89+/"
  {
  }

  // The four letters of three bytes are the digits, to the base 64 and the highest
  // first, of the number that the bytes make.
  lemma QuadIsNumber(x: byte, y: byte, z: byte)
    ensures var n: int := Number(x, y, z);
            Quad(x, y, z) == [Letter(n / 262144 % 64), Letter(n / 4096 % 64), Letter(n / 64 % 64), Letter(n % 64)]
  {
    hide Letter, Number;
    SixBits(x, y, z);
  }

  function Number(x: int, y: int, z: int): int {
    65536 * x + 256 * y + z
  }

  lemma SixBits(x: byte, y: byte, z: byte)
    ensures var n: int := Number(x, y, z);
            && n / 262144 % 64 == x / 4 && n / 4096 % 64 == x % 4 * 16 + y / 16
            && n / 64 % 64 == y % 16 * 4 + z / 64 && n % 64 == z % 64
  {
    var a: int := x;
    var b: int := y;
    var c: int := z;
    var n := Number(a, b, c);
    var n1 := 1024 * a + 4 * b + c / 64;
    var n2 := 16 * a + b / 16;
    OffSix(n1, c % 64, n);
    OffSix(n2, b % 16 * 4 + c / 64, n1);
    OffSix(a / 4, a % 4 * 16 + b / 16, n2);
    assert n / 4096 == n / 64 / 64 && n / 262144 == n / 64 / 64 / 64;
  }

  // One digit to the base 64 off a number.
  lemma OffSix(high: int, low: int, n: int)
    requires 0 <= low < 64 && n == 64 * high + low
    ensures n / 64 == high && n % 64 == low
  {
  }

  /**
   Base64 as section 4 of RFC 4648 has it: groups of three bytes as four letters, and
   for one or two bytes left over the letters of the group filled up with zeros, with
   the last two or the last one replaced by the padding sign.
   */
  lemma Base64Standard(b: seq<byte>)
    ensures if |b| == 0 then Base64(b) == ""
            else if |b| == 1 then Base64(b) == Quad(b[0], 0, 0)[..2] + "=="
            else if |b| == 2 then Base64(b) == Quad(b[0], b[1], 0)[..3] + "="
            else Base64(b) == Quad(b[0], b[1], b[2]) + Base64(b[3..])
  {
    hide Letter;
    if |b| == 1 {
      FilledUp(b[0], 0);
    } else if |b| == 2 {
      FilledUp(b[0], b[1]);
    }
  }

  lemma FilledUp(x: byte, y: byte)
    ensures Quad(x, 0, 0)[..2] == [Letter(x / 4), Letter(x % 4 * 16)]
    ensures Quad(x, y, 0)[..3] == [Letter(x / 4), Letter(x % 4 * 16 + y / 16), Letter(y % 16 * 4)]
  {
    hide Letter;
  }

  lemma LetterInjective(v: int, w: int)
    requires 0 <= v < 64 && 0 <= w < 64 && Letter(v) == Letter(w)
    ensures v == w
  {
  }

  lemma QuadInjective(x: byte, y: byte, z: byte, x': byte, y': byte, z': byte)
    requires Quad(x, y, z) == Quad(x', y', z')
    ensures x == x' && y == y' && z == z'
  {
    var q, q' := Quad(x, y, z), Quad(x', y', z');
    assert q[0] == q'[0] && q[1] == q'[1] && q[2] == q'[2] && q[3] == q'[3];
    LetterInjective(x / 4, x' / 4);
    LetterInjective(x % 4 * 16 + y / 16, x' % 4 * 16 + y' / 16);
    LetterInjective(y % 16 * 4 + z / 64, y' % 16 * 4 + z' / 64);
    LetterInjective(z % 64, z' % 64);
  }

  lemma {:induction false} Base64Length(b: seq<byte>)
    ensures |Base64(b)| == (|b| + 2) / 3 * 4
  {
    if |b| >= 3 {
      Base64Length(b[3..]);
      assert (|b| + 2) / 3 == (|b[3..]| + 2) / 3 + 1;
    }
  }

  lemma Padding(b: seq<byte>)
    requires |b| > 0
    ensures |Base64(b)| >= 4
    ensures Base64(b)[3] == '=' <==> |b| < 3
    ensures |b| < 3 ==> (Base64(b)[2] == '=' <==> |b| == 1)
  {
  }

  lemma OneByteInjective(x: byte, x': byte)
    requires Letter(x / 4) == Letter(x' / 4) && Letter(x % 4 * 16) == Letter(x' % 4 * 16)
    ensures x == x'
  {
    LetterInjective(x / 4, x' / 4);
    LetterInjective(x % 4 * 16, x' % 4 * 16);
  }

  lemma TwoBytesInjective(x: byte, y: byte, x': byte, y': byte)
    requires Letter(x / 4) == Letter(x' / 4)
    requires Letter(x % 4 * 16 + y / 16) == Letter(x' % 4 * 16 + y' / 16)
    requires Letter(y % 16 * 4) == Letter(y' % 16 * 4)
    ensures x == x' && y == y'
  {
    LetterInjective(x / 4, x' / 4);
    LetterInjective(x % 4 * 16 + y / 16, x' % 4 * 16 + y' / 16);
    LetterInjective(y % 16 * 4, y' % 16 * 4);
  }

  lemma OneInjective(a: seq<byte>, b: seq<byte>)
    requires |a| == |b| == 1 && Base64(a) == Base64(b)
    ensures a == b
  {
    hide Letter;
    assert Base64(a)[0] == Base64(b)[0] && Base64(a)[1] == Base64(b)[1];
    OneByteInjective(a[0], b[0]);
  }

  lemma TwoInjective(a: seq<byte>, b: seq<byte>)
    requires |a| == |b| == 2 && Base64(a) == Base64(b)
    ensures a == b
  {
    hide Letter;
    assert Base64(a)[0] == Base64(b)[0] && Base64(a)[1] == Base64(b)[1] && Base64(a)[2] == Base64(b)[2];
    TwoBytesInjective(a[0], a[1], b[0], b[1]);
  }

  lemma ShortBase64Injective(a: seq<byte>, b: seq<byte>)
    requires 1 <= |a| <= 2 && |b| > 0 && Base64(a) == Base64(b)
    ensures a == b
  {
    hide Base64;
    Padding(a);
    Padding(b);
    if |a| == 1 {
      OneInjective(a, b);
    } else {
      TwoInjective(a, b);
    }
  }

  // Two logical sessions never share a key.
  lemma {:induction false} Base64Injective(a: seq<byte>, b: seq<byte>)
    requires Base64(a) == Base64(b)
    ensures a == b
  {
    Base64Length(a);
    Base64Length(b);
    if |a| >= 3 && |b| >= 3 {
      assert Base64(a)[..4] == Quad(a[0], a[1], a[2]) && Base64(b)[..4] == Quad(b[0], b[1], b[2]);
      QuadInjective(a[0], a[1], a[2], b[0], b[1], b[2]);
      assert Base64(a)[4..] == Base64(a[3..]) && Base64(b)[4..] == Base64(b[3..]);
      Base64Injective(a[3..], b[3..]);
      assert a == a[..3] + a[3..] && b == b[..3] + b[3..];
    } else if 1 <= |a| <= 2 {
      ShortBase64Injective(a, b);
    } else if 1 <= |b| <= 2 {
      ShortBase64Injective(b, a);
    }
  }

  // ------------------------------------------------------------- cursor keys

  predicate IsDigit(c: char) {
    '0' <= c <= '9'
  }

  function Digits(n: nat): (s: string)
    ensures |s| > 0 && forall i :: 0 <= i < |s| ==> IsDigit(s[i])
  {
    var d := [('0' as int + n % 10) as char];
    if n < 10 then d else Digits(n / 10) + d
  }

  // The %d form of a signed number.
  function Decimal(n: int): string {
    if n < 0 then "-" + Digits(-n) else Digits(n)
  }

  function BuildKey(cursorId: int, collection: string): string {
    Decimal(cursorId) + "-" + collection
  }

  // The number that a string of decimal digits stands for.
  function Value(s: string): nat
    requires forall i :: 0 <= i < |s| ==> IsDigit(s[i])
  {
    if s == "" then 0
    else
      assert IsDigit(s[|s| - 1]);
      10 * Value(s[..|s| - 1]) + (s[|s| - 1] as int - '0' as int)
  }

  lemma {:induction false} DigitsStandFor(n: nat)
    ensures Value(Digits(n)) == n && (n > 0 ==> Digits(n)[0] != '0')
  {
    var s := Digits(n);
    if n >= 10 {
      DigitsStandFor(n / 10);
      assert s[..|s| - 1] == Digits(n / 10);
    } else {
      assert s[..|s| - 1] == "";
    }
  }

  lemma {:induction false} DigitsInjective(m: nat, n: nat)
    requires Digits(m) == Digits(n)
    ensures m == n
  {
    var s, t := Digits(m), Digits(n);
    assert s[|s| - 1] == ('0' as int + m % 10) as char && t[|t| - 1] == ('0' as int + n % 10) as char;
    if m >= 10 && n >= 10 {
      assert s[..|s| - 1] == Digits(m / 10) && t[..|t| - 1] == Digits(n / 10);
      DigitsInjective(m / 10, n / 10);
    }
  }

  predicate FirstDash(s: string, i: int) {
    0 <= i < |s| && s[i] == '-' && forall j :: 0 <= j < i ==> s[j] != '-'
  }

  lemma DashAfterDigits(d: string, x: string)
    requires forall i :: 0 <= i < |d| ==> IsDigit(d[i])
    ensures FirstDash(d + "-" + x, |d|)
    ensures (d + "-" + x)[..|d|] == d && (d + "-" + x)[|d| + 1..] == x
  {
  }

  // A run of digits before a dash is determined by the string that starts with it.
  lemma DashSplits(d: string, x: string, e: string, y: string)
    requires forall i :: 0 <= i < |d| ==> IsDigit(d[i])
    requires forall i :: 0 <= i < |e| ==> IsDigit(e[i])
    requires d + "-" + x == e + "-" + y
    ensures d == e && x == y
  {
    DashAfterDigits(d, x);
    DashAfterDigits(e, y);
  }

  lemma KeySign(i: int, x: string)
    ensures BuildKey(i, x) != "" && (BuildKey(i, x)[0] == '-' <==> i < 0)
    ensures i < 0 ==> BuildKey(i, x)[1..] == Digits(-i) + "-" + x
  {
    if i < 0 {
      assert BuildKey(i, x) == "-" + (Digits(-i) + "-" + x);
    } else {
      assert BuildKey(i, x)[0] == Digits(i)[0];
    }
  }

  // Different cursors have different keys, whatever the collection is called.
  lemma BuildKeyInjective(i: int, x: string, j: int, y: string)
    requires BuildKey(i, x) == BuildKey(j, y)
    ensures i == j && x == y
  {
    KeySign(i, x);
    KeySign(j, y);
    if i < 0 {
      DashSplits(Digits(-i), x, Digits(-j), y);
      DigitsInjective(-i, -j);
    } else {
      DashSplits(Digits(i), x, Digits(j), y);
      DigitsInjective(i, j);
    }
  }
}
