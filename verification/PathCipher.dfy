/**
 Sealed path names (src/crypto.ts:335-399, 408-423; base64url is that of section 5 of
 RFC 4648).

 The authenticated cipher and the text encoding are parameters; what is around them,
 segments, base64url and the two caches, is modelled as it is.
 */
module PathCipher {
  import opened Content
  import opened Pieces
  import opened Sealing
  import VaultNames

  // ---- base64 ----------------------------------------------------------------------

  predicate IsDigit64(c: char) {
    'A' <= c <= 'Z' || 'a' <= c <= 'z' || '0' <= c <= '9' || c == '+' || c == '/'
  }

  function Char64(v: int): (c: char)
    requires 0 <= v < 64
    ensures IsDigit64(c)
  {
    if v < 26 then 'A' + v as char
    else if v < 52 then 'a' + (v - 26) as char
    else if v < 62 then '0' + (v - 52) as char
    else if v == 62 then '+' else '/'
  }

  function Value64(c: char): (v: int)
    requires IsDigit64(c)
    ensures 0 <= v < 64
  {
    if 'A' <= c <= 'Z' then (c - 'A') as int
    else if 'a' <= c <= 'z' then (c - 'a') as int + 26
    else if '0' <= c <= '9' then (c - '0') as int + 52
    else if c == '+' then 62 else 63
  }

  lemma DigitBack(v: int)
    requires 0 <= v < 64
    ensures Value64(Char64(v)) == v
  {
  }

  /** Digits pack six bits of the bytes they straddle. */
  function Digit0(x: Byte): (v: int)
    ensures 0 <= v < 64
  {
    x / 4
  }

  function Digit1(x: Byte, y: int): (v: int)
    requires 0 <= y < 256
    ensures 0 <= v < 64
  {
    x % 4 * 16 + y / 16
  }

  function Digit2(y: Byte, z: int): (v: int)
    requires 0 <= z < 256
    ensures 0 <= v < 64
  {
    y % 16 * 4 + z / 64
  }

  function Digit3(z: Byte): (v: int)
    ensures 0 <= v < 64
  {
    z % 64
  }

  function Byte0(a: int, b: int): Byte
    requires 0 <= a < 64 && 0 <= b < 64
  {
    a * 4 + b / 16
  }

  function Byte1(b: int, c: int): Byte
    requires 0 <= b < 64 && 0 <= c < 64
  {
    b % 16 * 16 + c / 4
  }

  function Byte2(c: int, e: int): Byte
    requires 0 <= c < 64 && 0 <= e < 64
  {
    c % 4 * 64 + e
  }

  lemma Byte0Back(x: Byte, y: int)
    requires 0 <= y < 256
    ensures Byte0(Digit0(x), Digit1(x, y)) == x
  {
    assert (x % 4 * 16 + y / 16) / 16 == x % 4;
  }

  lemma Byte1Back(x: Byte, y: Byte, z: int)
    requires 0 <= z < 256
    ensures Byte1(Digit1(x, y), Digit2(y, z)) == y
  {
    assert (x % 4 * 16 + y / 16) % 16 == y / 16;
    assert (y % 16 * 4 + z / 64) / 4 == y % 16;
  }

  lemma Byte2Back(y: Byte, z: Byte)
    ensures Byte2(Digit2(y, z), Digit3(z)) == z
  {
    assert (y % 16 * 4 + z / 64) % 4 == z / 64;
  }

  function Two(x: Byte): string {
    [Char64(Digit0(x)), Char64(Digit1(x, 0))]
  }

  function Three(x: Byte, y: Byte): string {
    [Char64(Digit0(x)), Char64(Digit1(x, y)), Char64(Digit2(y, 0))]
  }

  function Four(x: Byte, y: Byte, z: Byte): string {
    [Char64(Digit0(x)), Char64(Digit1(x, y)), Char64(Digit2(y, z)), Char64(Digit3(z))]
  }

  /** Four digits for three bytes; what is left over at the end is padded. */
  function ToBase64(d: Data): string {
    if |d| == 0 then ""
    else if |d| == 1 then Two(d[0]) + "=="
    else if |d| == 2 then Three(d[0], d[1]) + "="
    else Four(d[0], d[1], d[2]) + ToBase64(d[3..])
  }

  /** Leftover bits of a padded group are dropped unseen. */
  function FromBase64(s: string): Option<Data>
    decreases |s|
  {
    if s == "" then Some([])
    else if |s| < 4 || !IsDigit64(s[0]) || !IsDigit64(s[1]) then None
    else
      var a, b := Value64(s[0]), Value64(s[1]);
      if |s| == 4 && s[2] == '=' && s[3] == '=' then Some([Byte0(a, b)])
      else if !IsDigit64(s[2]) then None
      else
        var c := Value64(s[2]);
        if |s| == 4 && s[3] == '=' then Some([Byte0(a, b), Byte1(b, c)])
        else if !IsDigit64(s[3]) then None
        else
          var rest := FromBase64(s[4..]);
          if rest == None then None
          else Some([Byte0(a, b), Byte1(b, c), Byte2(c, Value64(s[3]))] + rest.value)
  }

  predicate IsSpace64(c: char) {
    c == '\t' || c == '\n' || c == '\U{000C}' || c == '\r' || c == ' '
  }

  function Unspaced(s: string): string {
    if s == "" then "" else (if IsSpace64(s[0]) then "" else [s[0]]) + Unspaced(s[1..])
  }

  /** At most two pad signs, and only where they complete a group. */
  function Unpadded(s: string): string {
    if s == "" || |s| % 4 != 0 || s[|s| - 1] != '=' then s
    else if s[|s| - 2] != '=' then s[..|s| - 1]
    else s[..|s| - 2]
  }

  /** Decoding as browsers do it: white space goes, and padding is optional. */
  function Atob(s: string): Option<Data> {
    var digits := Unpadded(Unspaced(s));
    if |digits| % 4 == 1 || '=' in digits then None else FromBase64(digits + Padding(|digits|))
  }

  lemma OneBack(x: Byte)
    ensures FromBase64(Two(x) + "==") == Some([x])
  {
    DigitBack(Digit0(x));
    DigitBack(Digit1(x, 0));
    Byte0Back(x, 0);
    hide Value64, Char64, IsDigit64, Digit0, Digit1, Byte0;
  }

  lemma TwoBack(x: Byte, y: Byte)
    ensures FromBase64(Three(x, y) + "=") == Some([x, y])
  {
    DigitBack(Digit0(x));
    DigitBack(Digit1(x, y));
    DigitBack(Digit2(y, 0));
    Byte0Back(x, y);
    Byte1Back(x, y, 0);
    PadIsNoDigit();
    hide Value64, Char64, IsDigit64, Digit0, Digit1, Digit2, Byte0, Byte1;
  }

  lemma PadIsNoDigit()
    ensures !IsDigit64('=')
  {
  }

  /** Three bytes in front of others that lead back lead back as well. */
  lemma GroupBack(x: Byte, y: Byte, z: Byte, tail: string, rest: Data)
    requires FromBase64(tail) == Some(rest)
    ensures FromBase64(Four(x, y, z) + tail) == Some([x, y, z] + rest)
  {
    var s := Four(x, y, z) + tail;
    DigitBack(Digit0(x));
    DigitBack(Digit1(x, y));
    DigitBack(Digit2(y, z));
    DigitBack(Digit3(z));
    Byte0Back(x, y);
    Byte1Back(x, y, z);
    Byte2Back(y, z);
    PadIsNoDigit();
    hide Value64, Char64, IsDigit64, Digit0, Digit1, Digit2, Digit3, Byte0, Byte1, Byte2;
    assert s[4..] == tail;
  }

  lemma {:induction false} Base64Back(d: Data)
    ensures FromBase64(ToBase64(d)) == Some(d)
  {
    hide FromBase64, Two, Three, Four;
    if |d| == 0 {
      assert FromBase64("") == Some([]) by {
        NoneBack();
      }
    } else if |d| == 1 {
      OneBack(d[0]);
      assert d == [d[0]];
    } else if |d| == 2 {
      TwoBack(d[0], d[1]);
      assert d == [d[0], d[1]];
    } else {
      Base64Back(d[3..]);
      GroupBack(d[0], d[1], d[2], ToBase64(d[3..]), d[3..]);
      assert [d[0], d[1], d[2]] + d[3..] == d;
    }
  }

  lemma NoneBack()
    ensures FromBase64("") == Some([])
  {
  }

  // ---- as RFC 4648 has it --------------------------------------------------------------

  /** The alphabet of section 4, by character codes, and that of section 5 for names. */
  lemma AlphabetIs(v: int)
    requires 0 <= v < 64
    ensures Char64(v) as int ==
            if v < 26 then 65 + v else if v < 52 then 71 + v else if v < 62 then v - 4 else if v == 62 then 43 else 47
    ensures UrlChar(Char64(v)) as int == if v == 62 then 45 else if v == 63 then 95 else Char64(v) as int
  {
  }

  /** Four digits are the 24 bits of three bytes, six at a time. */
  lemma DigitsAreBits(x: Byte, y: Byte, z: Byte)
    ensures Digit0(x) * 262144 + Digit1(x, y) * 4096 + Digit2(y, z) * 64 + Digit3(z) == x * 65536 + y * 256 + z
  {
  }

  /** Group after group, and the last one padded. */
  lemma {:induction false} GroupsAre(d: Data, i: nat)
    requires 3 * i < |d|
    ensures 4 * i + 4 <= |ToBase64(d)|
    ensures var y, z := if 3 * i + 1 < |d| then d[3 * i + 1] else 0, if 3 * i + 2 < |d| then d[3 * i + 2] else 0;
            ToBase64(d)[4 * i..4 * i + 4] ==
            [Char64(Digit0(d[3 * i])), Char64(Digit1(d[3 * i], y)),
             if 3 * i + 1 < |d| then Char64(Digit2(y, z)) else '=', if 3 * i + 2 < |d| then Char64(Digit3(z)) else '=']
    decreases |d|
  {
    hide Char64, Digit0, Digit1, Digit2, Digit3;
    if i > 0 {
      GroupsAre(d[3..], i - 1);
      assert ToBase64(d)[4 * i..4 * i + 4] == ToBase64(d[3..])[4 * (i - 1)..4 * (i - 1) + 4];
    } else if |d| >= 3 {
      assert ToBase64(d)[..4] == Four(d[0], d[1], d[2]);
    }
  }

  /** White space is passed over wherever it stands. */
  lemma {:induction false} SpaceIsPassedOver(x: string, c: char, y: string)
    requires c in " \t\n\r\U{000C}"
    ensures Atob(x + [c] + y) == Atob(x + y)
  {
    UnspacedAround(x, c, y);
    hide Unspaced, FromBase64;
  }

  lemma {:induction false} UnspacedAround(x: string, c: char, y: string)
    requires c in " \t\n\r\U{000C}"
    ensures Unspaced(x + [c] + y) == Unspaced(x + y)
  {
    if x == "" {
      assert "" + [c] + y == [c] + y && "" + y == y;
    } else {
      UnspacedAround(x[1..], c, y);
      assert (x + [c] + y)[1..] == x[1..] + [c] + y && (x + y)[1..] == x[1..] + y;
    }
  }

  /** Anything but digits, pad signs and white space is refused. */
  lemma OthersAreRefused(s: string, i: nat)
    requires i < |s| && Atob(s).Some?
    ensures IsDigit64(s[i]) || s[i] == '=' || s[i] in " \t\n\r\U{000C}"
  {
    var u := Unspaced(s);
    var digits := Unpadded(u);
    UnspacedHas(s, i);
    DecodedDigits(digits + Padding(|digits|));
    hide IsDigit64, Unspaced, FromBase64;
    if s[i] in u && s[i] != '=' {
      assert s[i] in digits + Padding(|digits|);
    }
  }

  lemma {:induction false} UnspacedHas(s: string, i: nat)
    requires i < |s|
    ensures s[i] in Unspaced(s) || s[i] in " \t\n\r\U{000C}"
    decreases |s|
  {
    if i > 0 {
      UnspacedHas(s[1..], i - 1);
    }
  }

  lemma {:induction false} DecodedDigits(s: string)
    requires FromBase64(s).Some?
    ensures forall c <- s :: IsDigit64(c) || c == '='
    decreases |s|
  {
    hide IsDigit64, Value64;
    if s != "" {
      if |s| > 4 {
        DecodedDigits(s[4..]);
      }
      forall c | c in s
        ensures IsDigit64(c) || c == '='
      {
        assert c == s[0] || c == s[1] || c == s[2] || c == s[3] || c in s[4..];
      }
    }
  }

  // ---- the url-safe form, unpadded ---------------------------------------------------

  function UrlChar(c: char): char {
    if c == '+' then '-' else if c == '/' then '_' else c
  }

  function PlainChar(c: char): char {
    if c == '-' then '+' else if c == '_' then '/' else c
  }

  function Strip(s: string): string {
    if s != "" && s[|s| - 1] == '=' then Strip(s[..|s| - 1]) else s
  }

  function ToUrl(s: string): string {
    Strip(seq(|s|, i requires 0 <= i < |s| => UrlChar(s[i])))
  }

  function Padding(length: nat): string {
    seq((4 - length % 4) % 4, _ => '=')
  }

  function FromUrl(s: string): string {
    seq(|s|, i requires 0 <= i < |s| => PlainChar(s[i])) + Padding(|s|)
  }

  /** The bits of the last digit that no byte is made of. */
  predicate NothingOver(last: char, n: nat)
    requires IsDigit64(last)
  {
    (n % 4 == 2 ==> Value64(last) % 16 == 0) && (n % 4 == 3 ==> Value64(last) % 4 == 0)
  }

  /** Digits then at most two pad signs, a multiple of four in all, and no bits left over. */
  ghost predicate Padded(s: string, n: nat) {
    && n <= |s| <= n + 2 && |s| % 4 == 0 && n % 4 != 1
    && (forall i | 0 <= i < n :: IsDigit64(s[i]))
    && (forall i | n <= i < |s| :: s[i] == '=')
    && (n > 0 ==> NothingOver(s[n - 1], n))
  }

  lemma {:induction false} Base64IsPadded(d: Data) returns (n: nat)
    ensures Padded(ToBase64(d), n)
  {
    if |d| >= 3 {
      hide Char64, IsDigit64, NothingOver;
      var m := Base64IsPadded(d[3..]);
      n := m + 4;
      LastOfFour(d[0], d[1], d[2]);
      LongerIsPadded(Four(d[0], d[1], d[2]), ToBase64(d[3..]), m);
    } else {
      n := if |d| == 0 then 0 else |d| + 1;
      LastOfFew(d);
      hide Char64, IsDigit64, NothingOver;
    }
  }

  lemma LastOfFour(x: Byte, y: Byte, z: Byte)
    ensures NothingOver(Four(x, y, z)[3], 4)
  {
  }

  lemma LastOfFew(d: Data)
    ensures |d| == 1 ==> NothingOver(Two(d[0])[1], 2)
    ensures |d| == 2 ==> NothingOver(Three(d[0], d[1])[2], 3)
  {
    if |d| == 1 {
      DigitBack(Digit1(d[0], 0));
      assert d[0] % 4 * 16 % 16 == 0;
    } else if |d| == 2 {
      DigitBack(Digit2(d[1], 0));
    }
    hide Char64, Value64, IsDigit64;
  }

  lemma LongerIsPadded(head: string, rest: string, m: nat)
    requires Padded(rest, m) && |head| == 4 && forall i | 0 <= i < 4 :: IsDigit64(head[i])
    ensures Padded(head + rest, m + 4)
  {
    hide IsDigit64, Value64;
    assert (m + 4) % 4 == m % 4;
    assert m > 0 ==> (head + rest)[m + 3] == rest[m - 1];
  }

  // ---- decoding what encoding makes, and nothing else --------------------------------------

  lemma {:induction false} NoSpaces(s: string)
    requires forall c <- s :: !IsSpace64(c)
    ensures Unspaced(s) == s
  {
    if s != "" {
      NoSpaces(s[1..]);
      assert [s[0]] + s[1..] == s;
    }
  }

  lemma DigitIsNoSpace(c: char)
    requires IsDigit64(c) || c == '='
    ensures !IsSpace64(c)
  {
  }

  lemma PaddedEnds(s: string, n: nat)
    requires Padded(s, n)
    ensures '=' !in s[..n] && (n > 0 ==> s[n - 1] != '=') && (forall i | n <= i < |s| :: s[i] == '=')
    ensures n <= |s| <= n + 2 && |s| % 4 == 0 && n % 4 != 1
    ensures forall c <- s :: !IsSpace64(c)
  {
    PadIsNoDigit();
    forall c <- s
      ensures !IsSpace64(c)
    {
      DigitIsNoSpace(c);
    }
    hide IsDigit64, IsSpace64, NothingOver;
  }

  lemma PaddingRestored(s: string, n: nat)
    requires n <= |s| <= n + 2 && |s| % 4 == 0 && forall i | n <= i < |s| :: s[i] == '='
    ensures s[..n] + Padding(n) == s
  {
    assert |Padding(n)| == |s| - n;
  }

  /** On padded digits browsers decode strictly. */
  lemma AtobOfPadded(s: string, n: nat)
    requires Padded(s, n)
    ensures Atob(s) == FromBase64(s)
  {
    PaddedEnds(s, n);
    NoSpaces(s);
    PaddingRestored(s, n);
    hide IsSpace64, FromBase64, Padded, Padding;
    assert Unpadded(s) == s[..n];
  }

  lemma CharBack(c: char)
    requires IsDigit64(c)
    ensures Char64(Value64(c)) == c
  {
  }

  lemma DigitsForth(a: int, b: int, c: int, e: int)
    requires 0 <= a < 64 && 0 <= b < 64 && 0 <= c < 64 && 0 <= e < 64
    ensures var x, y, z := Byte0(a, b), Byte1(b, c), Byte2(c, e);
            Digit0(x) == a && Digit1(x, y) == b && Digit2(y, z) == c && Digit3(z) == e
    ensures b % 16 == 0 ==> Digit1(Byte0(a, b), 0) == b
    ensures c % 4 == 0 ==> Digit2(Byte1(b, c), 0) == c
  {
    assert (a * 4 + b / 16) / 4 == a && (a * 4 + b / 16) % 4 == b / 16;
    assert (b % 16 * 16 + c / 4) / 16 == b % 16 && (b % 16 * 16 + c / 4) % 16 == c / 4;
    assert (c % 4 * 64 + e) / 64 == c % 4 && (c % 4 * 64 + e) % 64 == e;
  }

  lemma GroupForth(s: string)
    requires |s| == 4 && forall i | 0 <= i < 4 :: IsDigit64(s[i])
    ensures var a, b, c, e := Value64(s[0]), Value64(s[1]), Value64(s[2]), Value64(s[3]);
            Four(Byte0(a, b), Byte1(b, c), Byte2(c, e)) == s
  {
    var a, b, c, e := Value64(s[0]), Value64(s[1]), Value64(s[2]), Value64(s[3]);
    DigitsForth(a, b, c, e);
    CharBack(s[0]);
    CharBack(s[1]);
    CharBack(s[2]);
    CharBack(s[3]);
    hide Char64, Value64, IsDigit64, Digit0, Digit1, Digit2, Digit3, Byte0, Byte1, Byte2;
  }

  lemma OneForth(s: string)
    requires Padded(s, 2) && |s| == 4
    ensures FromBase64(s).Some? && ToBase64(FromBase64(s).value) == s
  {
    var a, b := Value64(s[0]), Value64(s[1]);
    CharBack(s[0]);
    CharBack(s[1]);
    DigitsForth(a, b, 0, 0);
    hide Char64, Value64, IsDigit64, Digit0, Digit1, Byte0;
    assert FromBase64(s) == Some([Byte0(a, b)]);
    assert Two(Byte0(a, b)) + "==" == s;
  }

  lemma TwoForth(s: string)
    requires Padded(s, 3) && |s| == 4
    ensures FromBase64(s).Some? && ToBase64(FromBase64(s).value) == s
  {
    var a, b, c := Value64(s[0]), Value64(s[1]), Value64(s[2]);
    PadIsNoDigit();
    CharBack(s[0]);
    CharBack(s[1]);
    CharBack(s[2]);
    DigitsForth(a, b, c, 0);
    hide Char64, Value64, IsDigit64, Digit0, Digit1, Digit2, Byte0, Byte1;
    assert FromBase64(s) == Some([Byte0(a, b), Byte1(b, c)]);
    assert Three(Byte0(a, b), Byte1(b, c)) + "=" == s;
  }

  lemma {:induction false} Base64Forth(s: string, n: nat)
    requires Padded(s, n)
    ensures FromBase64(s).Some? && ToBase64(FromBase64(s).value) == s
    decreases |s|
  {
    if s == "" {
    } else if n == 2 {
      OneForth(s);
    } else if n == 3 {
      TwoForth(s);
    } else {
      assert Padded(s[4..], n - 4) by {
        hide IsDigit64, Value64;
        assert (n - 4) % 4 == n % 4;
      }
      Base64Forth(s[4..], n - 4);
      LongForth(s);
    }
  }

  lemma LongForth(s: string)
    requires |s| >= 4 && (forall i | 0 <= i < 4 :: IsDigit64(s[i]))
    requires FromBase64(s[4..]).Some? && ToBase64(FromBase64(s[4..]).value) == s[4..]
    ensures FromBase64(s).Some? && ToBase64(FromBase64(s).value) == s
  {
    GroupForth(s[..4]);
    PadIsNoDigit();
    hide Value64, IsDigit64, Byte0, Byte1, Byte2, Four;
    var d, rest := FromBase64(s).value, FromBase64(s[4..]).value;
    assert d[3..] == rest;
    assert s == s[..4] + s[4..];
  }

  lemma {:induction false} StripPads(s: string, n: nat)
    requires n <= |s| && (n > 0 ==> s[n - 1] != '=') && forall i | n <= i < |s| :: s[i] == '='
    ensures Strip(s) == s[..n]
    decreases |s|
  {
    if n < |s| {
      StripPads(s[..|s| - 1], n);
      assert s[..|s| - 1][..n] == s[..n];
    } else {
      assert s[..n] == s;
    }
  }

  /** What the url-safe form of padded digits is, and that it leads back to them. */
  lemma UrlBack(s: string, n: nat)
    requires Padded(s, n)
    ensures |ToUrl(s)| == n && (forall i | 0 <= i < n :: ToUrl(s)[i] == UrlChar(s[i]))
    ensures FromUrl(ToUrl(s)) == s
  {
    var u := seq(|s|, i requires 0 <= i < |s| => UrlChar(s[i]));
    StripPads(u, n);
    var back := FromUrl(u[..n]);
    assert |back| == |s|;
    forall i | 0 <= i < |s|
      ensures back[i] == s[i]
    {
    }
  }

  predicate IsUrlDigit(c: char) {
    'A' <= c <= 'Z' || 'a' <= c <= 'z' || '0' <= c <= '9' || c == '-' || c == '_'
  }

  lemma UrlDigits(c: char)
    ensures IsUrlDigit(c) <==> IsDigit64(PlainChar(c)) && UrlChar(PlainChar(c)) == c
    ensures IsDigit64(c) ==> IsUrlDigit(UrlChar(c)) && PlainChar(UrlChar(c)) == c
  {
  }

  /** Url-safe digits only, no padding, and no bits left over. */
  predicate UrlCanonical(s: string) {
    && (forall c <- s :: IsUrlDigit(c)) && |s| % 4 != 1
    && (s != "" && IsDigit64(PlainChar(s[|s| - 1])) ==> NothingOver(PlainChar(s[|s| - 1]), |s|))
  }

  lemma CanonicalIsPadded(s: string)
    requires UrlCanonical(s)
    ensures Padded(FromUrl(s), |s|) && ToUrl(FromUrl(s)) == s
  {
    forall i | 0 <= i < |s|
      ensures IsDigit64(PlainChar(s[i])) && UrlChar(PlainChar(s[i])) == s[i]
    {
      assert s[i] in s;
      UrlDigits(s[i]);
    }
    hide IsDigit64, IsUrlDigit, PlainChar, UrlChar, NothingOver;
    UrlBack(FromUrl(s), |s|);
    hide ToUrl;
    assert ToUrl(FromUrl(s)) == s;
  }

  lemma EncodedIsCanonical(d: Data)
    ensures UrlCanonical(ToUrl(ToBase64(d)))
  {
    var s := ToBase64(d);
    var n := Base64IsPadded(d);
    UrlBack(s, n);
    forall i | 0 <= i < n
      ensures IsUrlDigit(UrlChar(s[i])) && PlainChar(UrlChar(s[i])) == s[i]
    {
      UrlDigits(s[i]);
    }
    hide IsDigit64, IsUrlDigit, PlainChar, UrlChar, ToUrl, ToBase64, FromUrl, NothingOver;
  }

  /** Of the names that decode to given bytes, the canonical one is what the bytes encode to. */
  lemma CanonicalExactly(s: string, d: Data)
    requires Atob(FromUrl(s)) == Some(d)
    ensures s == ToUrl(ToBase64(d)) <==> UrlCanonical(s)
  {
    EncodedIsCanonical(d);
    if UrlCanonical(s) {
      CanonicalIsPadded(s);
      AtobOfPadded(FromUrl(s), |s|);
      Base64Forth(FromUrl(s), |s|);
    }
    hide UrlCanonical, Atob, FromBase64, ToBase64, FromUrl, ToUrl, Padded;
  }

  // ---- segments -----------------------------------------------------------------------

  /** The names' key, and the text encoding both ways. */
  datatype Keys = Keys(aead: Aead, encode: string -> Data, decode: Data -> string)

  ghost predicate Genuine(k: Keys) {
    Works(k.aead) && forall t :: k.decode(k.encode(t)) == t
  }

  function SealSegment(k: Keys, segment: string): string
    requires Genuine(k)
  {
    ToUrl(ToBase64(SealData(k.aead, k.encode(segment))))
  }

  function OpenSegment(k: Keys, sealed: string): Option<string> {
    var bytes := Atob(FromUrl(sealed));
    if bytes == None then None
    else
      var plain := OpenData(k.aead, bytes.value);
      if plain == None then None else Some(k.decode(plain.value))
  }

  /** A sealed segment opens to what it was, is not empty and is a single segment. */
  lemma SegmentBack(k: Keys, segment: string)
    requires Genuine(k)
    ensures OpenSegment(k, SealSegment(k, segment)) == Some(segment)
    ensures '/' !in SealSegment(k, segment) && SealSegment(k, segment) != ""
  {
    SealedOpens(k.aead, k.encode(segment));
    UrlOfBytes(SealData(k.aead, k.encode(segment)));
    hide ToUrl, ToBase64, FromUrl, Atob, SealData, OpenData;
  }

  /**
   A segment as this cipher writes them: canonical digits of bytes that open, under the
   nonce of what they open to, to the encoding of a text without a slash.
   */
  ghost predicate Minted(k: Keys, segment: string) {
    && UrlCanonical(segment) && Atob(FromUrl(segment)).Some?
    && var bytes := Atob(FromUrl(segment)).value;
    && OpenData(k.aead, bytes).Some?
    && var plain := OpenData(k.aead, bytes).value;
    && |bytes| >= NONCE && |k.aead.mac(plain)| >= NONCE && bytes[..NONCE] == k.aead.mac(plain)[..NONCE]
    && k.encode(k.decode(plain)) == plain && '/' !in k.decode(plain)
  }

  /** Of the segments that open to a text, the one with these marks is the text's own. */
  lemma MintedExactly(k: Keys, segment: string)
    requires Genuine(k) && OpenSegment(k, segment).Some?
    ensures var text := OpenSegment(k, segment).value;
            Minted(k, segment) <==> segment == SealSegment(k, text) && '/' !in text
  {
    var bytes := Atob(FromUrl(segment)).value;
    var plain := OpenData(k.aead, bytes).value;
    var text := k.decode(plain);
    CanonicalExactly(segment, bytes);
    OpenedExactly(k.aead, bytes);
    if segment == SealSegment(k, text) {
      UrlOfBytes(SealData(k.aead, k.encode(text)));
      SealedOpens(k.aead, k.encode(text));
    }
    hide UrlCanonical, Atob, FromUrl, ToUrl, ToBase64, OpenData;
  }

  /** Bytes that open are those sealing would give exactly when they carry the right nonce. */
  lemma OpenedExactly(k: Aead, bytes: Data)
    requires Works(k) && OpenData(k, bytes).Some?
    ensures var plain := OpenData(k, bytes).value;
            SealData(k, plain) == bytes <==> bytes[..NONCE] == k.mac(plain)[..NONCE]
  {
    var plain := OpenData(k, bytes).value;
    assert k.lock(bytes[..NONCE], plain) == bytes[NONCE..];
    assert bytes[..NONCE] + bytes[NONCE..] == bytes;
    assert SealData(k, plain)[..NONCE] == k.mac(plain)[..NONCE];
  }

  /** Bytes come back from their url-safe form, which has no slash. */
  lemma UrlOfBytes(d: Data)
    ensures Atob(FromUrl(ToUrl(ToBase64(d)))) == Some(d)
    ensures '/' !in ToUrl(ToBase64(d)) && (d != [] ==> ToUrl(ToBase64(d)) != "")
  {
    var s := ToBase64(d);
    var n := Base64IsPadded(d);
    UrlBack(s, n);
    Base64Back(d);
    AtobOfPadded(s, n);
    assert d != [] ==> |s| >= 4;
    hide FromBase64, Atob, ToBase64, FromUrl, ToUrl, IsDigit64, NothingOver;
  }

  // ---- paths ------------------------------------------------------------------------------

  const SLASH := '/'

  function SealAll(k: Keys, segments: seq<string>): seq<string>
    requires Genuine(k)
  {
    if segments == [] then [] else [SealSegment(k, segments[0])] + SealAll(k, segments[1..])
  }

  function OpenAll(k: Keys, sealed: seq<string>): Option<seq<string>> {
    if sealed == [] then Some([])
    else
      var first, rest := OpenSegment(k, sealed[0]), OpenAll(k, sealed[1..]);
      if first == None || rest == None then None else Some([first.value] + rest.value)
  }

  function SealPath(k: Keys, path: string): string
    requires Genuine(k)
  {
    Join(SealAll(k, Split(path, SLASH)), SLASH)
  }

  function OpenPath(k: Keys, remote: string): Option<string> {
    var segments := OpenAll(k, Split(remote, SLASH));
    if segments == None then None else Some(Join(segments.value, SLASH))
  }

  lemma {:induction false} SealedSegments(k: Keys, segments: seq<string>)
    requires Genuine(k)
    ensures |SealAll(k, segments)| == |segments|
    ensures forall i | 0 <= i < |segments| :: SealAll(k, segments)[i] == SealSegment(k, segments[i])
    ensures forall s <- SealAll(k, segments) :: SLASH !in s
    ensures OpenAll(k, SealAll(k, segments)) == Some(segments)
  {
    hide SealSegment, OpenSegment;
    if segments != [] {
      SegmentBack(k, segments[0]);
      SealedSegments(k, segments[1..]);
      assert SealAll(k, segments)[1..] == SealAll(k, segments[1..]);
      assert [segments[0]] + segments[1..] == segments;
    }
  }

  /** A sealed path opens to the path, and has a segment for each of its segments. */
  lemma PathBack(k: Keys, path: string)
    requires Genuine(k)
    ensures OpenPath(k, SealPath(k, path)) == Some(path)
    ensures Split(SealPath(k, path), SLASH) == SealAll(k, Split(path, SLASH))
    ensures |Split(SealPath(k, path), SLASH)| == |Split(path, SLASH)|
  {
    var segments := Split(path, SLASH);
    hide Split, Join, SealAll, OpenAll;
    SealedSegments(k, segments);
    SplitJoin(SealAll(k, segments), SLASH);
    JoinSplit(path, SLASH);
  }

  lemma {:induction false} OpenedSegments(k: Keys, sealed: seq<string>)
    requires Genuine(k) && OpenAll(k, sealed).Some?
    ensures var texts := OpenAll(k, sealed).value;
            && |texts| == |sealed|
            && forall i | 0 <= i < |sealed| :: OpenSegment(k, sealed[i]) == Some(texts[i])
  {
    hide OpenSegment;
    if sealed != [] {
      OpenedSegments(k, sealed[1..]);
    }
  }

  /** A name that opens is the one the cipher would have made exactly when each of its segments is. */
  lemma NameIsMintedExactly(k: Keys, remote: string)
    requires Genuine(k) && OpenPath(k, remote).Some?
    ensures remote == SealPath(k, OpenPath(k, remote).value) <==> forall s <- Split(remote, SLASH) :: Minted(k, s)
  {
    var sealed := Split(remote, SLASH);
    var texts := OpenAll(k, sealed).value;
    OpenedSegments(k, sealed);
    JoinSplit(remote, SLASH);
    forall i | 0 <= i < |sealed|
      ensures Minted(k, sealed[i]) <==> sealed[i] == SealSegment(k, texts[i]) && SLASH !in texts[i]
    {
      MintedExactly(k, sealed[i]);
    }
    hide Minted, OpenSegment, SealSegment, Split, Join;
    if forall s <- sealed :: Minted(k, s) {
      MintedName(k, remote, sealed, texts);
    }
    if remote == SealPath(k, Join(texts, SLASH)) {
      OwnName(k, remote, sealed, texts);
    }
  }

  lemma MintedName(k: Keys, remote: string, sealed: seq<string>, texts: seq<string>)
    requires Genuine(k) && sealed == Split(remote, SLASH) && Join(sealed, SLASH) == remote && |texts| == |sealed|
    requires forall i | 0 <= i < |sealed| :: sealed[i] == SealSegment(k, texts[i]) && SLASH !in texts[i]
    ensures remote == SealPath(k, Join(texts, SLASH))
  {
    hide SealSegment, Split, Join;
    SplitJoin(texts, SLASH);
    SealedSegments(k, texts);
    assert SealAll(k, texts) == sealed;
  }

  lemma OwnName(k: Keys, remote: string, sealed: seq<string>, texts: seq<string>)
    requires Genuine(k) && sealed == Split(remote, SLASH) && OpenAll(k, sealed) == Some(texts)
    requires remote == SealPath(k, Join(texts, SLASH))
    ensures forall i | 0 <= i < |sealed| :: i < |texts| && sealed[i] == SealSegment(k, texts[i]) && SLASH !in texts[i]
  {
    var local := Join(texts, SLASH);
    hide SealSegment, OpenSegment, Split, Join;
    PathBack(k, local);
    SealedSegments(k, Split(local, SLASH));
    PiecesAreClean(local, SLASH);
    hide OpenAll, SealAll;
    assert texts == Split(local, SLASH);
    forall i | 0 <= i < |texts|
      ensures SLASH !in texts[i]
    {
      assert texts[i] in texts;
    }
  }

  /** A name can open to a text without being that text's name: padding is enough. */
  lemma PaddedNameOpens(k: Keys, text: string)
    requires Genuine(k) && |k.encode(text)| % 3 == 0
    ensures OpenSegment(k, SealSegment(k, text) + "==") == Some(text)
    ensures !Minted(k, SealSegment(k, text) + "==")
  {
    var d, name := SealData(k.aead, k.encode(text)), SealSegment(k, text) + "==";
    SealedOpens(k.aead, k.encode(text));
    PaddedDecodes(d);
    assert name[|name| - 1] in name && name[|name| - 1] == '=';
    hide Atob, ToBase64, FromUrl, ToUrl, OpenData, SealData;
  }

  lemma PaddedDecodes(d: Data)
    requires |d| % 3 == 1
    ensures Atob(FromUrl(ToUrl(ToBase64(d)) + "==")) == Some(d)
  {
    var s := ToBase64(d);
    var n := Base64IsPadded(d);
    EndsInPads(d);
    PadIsNoDigit();
    hide FromBase64, Atob, ToBase64, FromUrl, ToUrl, IsDigit64, NothingOver;
    assert |s| == n + 2;
    PaddedTwice(s, n);
    AtobOfPadded(s, n);
    Base64Back(d);
  }

  lemma {:induction false} EndsInPads(d: Data)
    requires |d| % 3 == 1
    ensures var s := ToBase64(d); |s| >= 2 && s[|s| - 2] == '='
  {
    hide Two, Three, Four;
    if |d| >= 3 {
      EndsInPads(d[3..]);
    }
  }

  lemma PaddedTwice(s: string, n: nat)
    requires Padded(s, n) && |s| == n + 2
    ensures FromUrl(ToUrl(s) + "==") == s
  {
    UrlBack(s, n);
    forall i | 0 <= i < n
      ensures PlainChar(UrlChar(s[i])) == s[i]
    {
      UrlDigits(s[i]);
    }
    hide IsDigit64, NothingOver, UrlChar, ToUrl;
    assert |FromUrl(ToUrl(s) + "==")| == |s|;
  }

  lemma {:induction false} SealedConcat(k: Keys, a: seq<string>, b: seq<string>)
    requires Genuine(k)
    ensures SealAll(k, a + b) == SealAll(k, a) + SealAll(k, b)
  {
    hide SealSegment;
    if a == [] {
      assert a + b == b;
    } else {
      assert (a + b)[1..] == a[1..] + b;
      SealedConcat(k, a[1..], b);
    }
  }

  /** A folder's sealed name is a prefix, by segments, of the sealed name of anything in it. */
  lemma FolderIsPrefix(k: Keys, folder: string, rest: string)
    requires Genuine(k)
    ensures SealPath(k, folder + "/" + rest) == SealPath(k, folder) + "/" + SealPath(k, rest)
  {
    var a, b := SealAll(k, Split(folder, SLASH)), SealAll(k, Split(rest, SLASH));
    hide Split, Join, SealAll;
    SplitAt(folder, rest, SLASH);
    SealedConcat(k, Split(folder, SLASH), Split(rest, SLASH));
    SealedSegments(k, Split(folder, SLASH));
    SealedSegments(k, Split(rest, SLASH));
    JoinConcat(a, b, SLASH);
  }

  /** The cipher a vault's names are sealed with is one the migration can rely on. */
  function AsNames(k: Keys): VaultNames.Names
    requires Genuine(k)
  {
    VaultNames.Names((p: string) => SealPath(k, p), (r: string) => OpenPath(k, r))
  }

  lemma NamesAreHonest(k: Keys)
    requires Genuine(k)
    ensures VaultNames.Honest(AsNames(k))
  {
    forall p
      ensures AsNames(k).open(AsNames(k).seal(p)) == Some(p)
    {
      PathBack(k, p);
    }
    hide SealPath, OpenPath;
  }

  // ---- the caches -------------------------------------------------------------------------------

  class CachedCipher {
    const keys: Keys
    var toRemote: map<string, string>
    var toLocal: map<string, string>

    /** Whatever is cached is what the cipher makes, both ways. */
    ghost predicate Agrees()
      reads this
    {
      && Genuine(keys)
      && (forall p <- toRemote :: toRemote[p] == SealPath(keys, p))
      && (forall r <- toLocal :: r == SealPath(keys, toLocal[r]))
    }

    constructor (keys: Keys)
      requires Genuine(keys)
      ensures Agrees() && this.keys == keys
    {
      this.keys, toRemote, toLocal := keys, map[], map[];
    }

    method Remember(local: string, remote: string)
      modifies this
      ensures toRemote == old(toRemote)[local := remote] && toLocal == old(toLocal)[remote := local]
    {
      toRemote, toLocal := toRemote[local := remote], toLocal[remote := local];
    }

    method Encrypt(path: string) returns (remote: string)
      requires Agrees()
      modifies this
      ensures Agrees() && remote == SealPath(keys, path)
    {
      hide SealSegment, Split, Join;
      if path in toRemote && toRemote[path] != "" {
        return toRemote[path];
      }
      var segments := Split(path, SLASH);
      var out: seq<string> := [];
      for i := 0 to |segments|
        invariant unchanged(this) && out == SealAll(keys, segments[..i])
      {
        SealedConcat(keys, segments[..i], [segments[i]]);
        assert segments[..i + 1] == segments[..i] + [segments[i]];
        out := out + [SealSegment(keys, segments[i])];
      }
      assert segments[..|segments|] == segments;
      remote := Join(out, SLASH);
      assert remote == SealPath(keys, path);
      Remember(path, remote);
    }

    /**
     The name a sealed path stands for, if it opens at all.  The caches stay right
     exactly when each segment of the name is one the cipher writes.
     */
    method Decrypt(remote: string) returns (local: Option<string>)
      requires Agrees()
      modifies this
      ensures local == OpenPath(keys, remote)
      ensures Agrees() <==> local == None || forall s <- Split(remote, SLASH) :: Minted(keys, s)
    {
      hide SealSegment, OpenSegment, Split, Join, SealPath, OpenPath, Minted;
      if remote in toLocal && toLocal[remote] != "" {
        PathBack(keys, toLocal[remote]);
        NameIsMintedExactly(keys, remote);
        return Some(toLocal[remote]);
      }
      local := OpenSegments(remote);
      if local.Some? {
        NameIsMintedExactly(keys, remote);
        Remember(local.value, remote);
        assert local.value in toRemote;
      }
    }

    method OpenSegments(remote: string) returns (local: Option<string>)
      ensures local == OpenPath(keys, remote)
    {
      hide OpenSegment, Split, Join;
      var segments := Split(remote, SLASH);
      var out: seq<string> := [];
      assert segments[0..] == segments;
      OpenedEnds([], OpenAll(keys, segments));
      for i := 0 to |segments|
        invariant OpenAll(keys, segments) == Opened(out, OpenAll(keys, segments[i..]))
      {
        var plain := OpenSegment(keys, segments[i]);
        assert segments[i..][1..] == segments[i + 1..];
        if plain == None {
          return None;
        }
        OneMore(out, plain.value, OpenAll(keys, segments[i + 1..]));
        out := out + [plain.value];
      }
      assert segments[|segments|..] == [];
      OpenedEnds(out, Some([]));
      return Some(Join(out, SLASH));
    }
  }

  function Opened(out: seq<string>, rest: Option<seq<string>>): Option<seq<string>> {
    if rest == None then None else Some(out + rest.value)
  }

  lemma OpenedEnds(out: seq<string>, rest: Option<seq<string>>)
    ensures Opened([], rest) == rest && Opened(out, Some([])) == Some(out)
  {
    assert out + [] == out;
    assert rest.Some? ==> [] + rest.value == rest.value;
  }

  lemma OneMore(out: seq<string>, one: string, rest: Option<seq<string>>)
    ensures rest.Some? ==> out + ([one] + rest.value) == (out + [one]) + rest.value
  {
  }
}
