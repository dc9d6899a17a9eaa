/** MAC addresses as text: how the server prints them and how it reads back the one the operator types. */
module MacAddress {
  import opened Registration

  const LONG_MAX := 0x7FFF_FFFF_FFFF_FFFF
  const LONG_MIN := -0x8000_0000_0000_0000

  // ----- printing

  function HexDigit(d: nat): (c: char)
    requires d < 16
    ensures '0' <= c <= '9' || 'a' <= c <= 'f'
  {
    (if d < 10 then '0' as int + d else 'a' as int + d - 10) as char
  }

  /** `%02x`. */
  function Hex2(b: byte): (r: Text)
    ensures |r| == 2 && '_' !in r && '/' !in r
  {
    [HexDigit(b / 16), HexDigit(b % 16)]
  }

  function Joined(gs: seq<Text>): Text {
    if gs == [] then [] else if |gs| == 1 then gs[0] else gs[0] + ":" + Joined(gs[1..])
  }

  function Padded(bs: seq<byte>): (r: seq<Text>)
    ensures |r| == |bs|
  {
    seq(|bs|, i requires 0 <= i < |bs| => Hex2(bs[i]))
  }

  /** `getmacstr`. */
  function GetMacStr(mac: Mac): Text {
    Hex2(mac[0]) + ":" + Hex2(mac[1]) + ":" + Hex2(mac[2]) + ":" + Hex2(mac[3]) + ":" + Hex2(mac[4]) + ":" + Hex2(mac[5])
  }

  // ----- `strtol` in base 16 (section 7.20.1.4 of ISO/IEC 9899:1999)

  predicate IsSpace(c: char) { c in {' ', '\t', '\n', 11 as char, 12 as char, '\r'} }

  predicate IsHex(c: char) { '0' <= c <= '9' || 'a' <= c <= 'f' || 'A' <= c <= 'F' }

  function HexValue(c: char): (d: nat)
    requires IsHex(c)
    ensures d < 16
  {
    if '0' <= c <= '9' then c as int - '0' as int
    else if 'a' <= c <= 'f' then c as int - 'a' as int + 10
    else c as int - 'A' as int + 10
  }

  predicate AllHex(s: Text) { forall i :: 0 <= i < |s| ==> IsHex(s[i]) }

  /** The number a run of hexadecimal digits denotes. */
  function Number(s: Text): nat
    requires AllHex(s)
  {
    if s == [] then 0 else 16 * Number(s[..|s| - 1]) + HexValue(s[|s| - 1])
  }

  function Spaces(s: Text): (n: nat)
    ensures n <= |s|
  {
    if s != [] && IsSpace(s[0]) then 1 + Spaces(s[1..]) else 0
  }

  /** The length of the longest run of hexadecimal digits the text starts with. */
  function HexRun(s: Text): (n: nat)
    ensures n <= |s| && AllHex(s[..n]) && (n < |s| ==> !IsHex(s[n]))
  {
    if s != [] && IsHex(s[0]) then 1 + HexRun(s[1..]) else 0
  }

  /** The value wrapped to the range of a 64-bit `long` by saturation. */
  function Clamp(v: int): int {
    if v > LONG_MAX then LONG_MAX else if v < LONG_MIN then LONG_MIN else v
  }

  datatype Converted = Converted(value: int, used: nat)

  /** The value read and how many characters were used. A prefix `0x` counts only before a digit; without any digit
      nothing is used. */
  function Strtol(s: Text): (r: Converted)
    ensures r.used <= |s|
  {
    var a := Spaces(s);
    var b := if a < |s| && s[a] in {'+', '-'} then a + 1 else a;
    var c := if b + 2 < |s| && s[b] == '0' && s[b + 1] in {'x', 'X'} && IsHex(s[b + 2]) then b + 2 else b;
    var n := HexRun(s[c..]);
    if n == 0 then Converted(0, 0)
    else
      var v: int := Number(s[c..][..n]);
      Converted(Clamp(if b > a && s[a] == '-' then -v else v), c + n)
  }

  // ----- reading

  /** What `macstr_to_mac` makes of the text from the i-th byte on; the bytes it does not reach keep their values. */
  function Parsed(s: Text, i: nat, mac: Mac): Mac
    requires i <= ETH_ALEN
    decreases ETH_ALEN - i
  {
    if i == ETH_ALEN then mac
    else
      var r := Strtol(s);
      var mac' := mac[i := r.value % 256];
      if r.used == |s| then mac' else Parsed(s[r.used + 1..], i + 1, mac')
  }

  /** `macstr_to_mac`; the end of the text stands for the terminating NUL. */
  method MacstrToMac(macstr: Text, mac: array<byte>)
    requires mac.Length == ETH_ALEN
    modifies mac
    ensures mac[..] == Parsed(macstr, 0, old(mac[..]))
  {
    hide Strtol;
    var rest := macstr;
    var i := 0;
    while i < ETH_ALEN
      invariant i <= ETH_ALEN
      invariant Parsed(macstr, 0, old(mac[..])) == Parsed(rest, i, mac[..])
    {
      var r := Strtol(rest);
      var b: byte := r.value % 256;
      ghost var was := mac[..];
      mac[i] := b;
      assert mac[..] == was[i := b];
      if r.used == |rest| {
        return;
      }
      rest := rest[r.used + 1..];
      i := i + 1;
    }
  }

  // ----- reading what was printed

  /** Groups of hexadecimal digits, of any length and in either case. */
  predicate Groups(gs: seq<Text>) {
    forall i :: 0 <= i < |gs| ==> gs[i] != [] && AllHex(gs[i])
  }

  function GroupByte(g: Text): byte
    requires AllHex(g)
  {
    Clamp(Number(g)) % 256
  }

  function GroupBytes(gs: seq<Text>): (r: seq<byte>)
    requires Groups(gs)
    ensures |r| == |gs| && forall i :: 0 <= i < |gs| ==> r[i] == GroupByte(gs[i])
  {
    seq(|gs|, i requires 0 <= i < |gs| => GroupByte(gs[i]))
  }

  lemma {:induction false} HexRunOf(g: Text, rest: Text)
    requires AllHex(g) && (rest != [] ==> !IsHex(rest[0]))
    ensures HexRun(g + rest) == |g|
  {
    if g == [] {
      assert g + rest == rest;
    } else {
      HexRunOf(g[1..], rest);
      assert (g + rest)[1..] == g[1..] + rest;
    }
  }

  /** With no space, sign or prefix to skip, the number is the run of digits in front. */
  lemma StrtolPlain(s: Text, n: nat)
    requires Spaces(s) == 0 && HexRun(s) == n && 0 < n && s[0] !in {'+', '-'} && (|s| > 1 ==> s[1] !in {'x', 'X'})
    ensures Strtol(s) == Converted(Clamp(Number(s[..n])), n)
  {
    hide Spaces, HexRun, Number, Clamp;
    assert s[0..] == s;
  }

  /** What decides the conversion: where white space, sign and prefix end and how many digits follow. */
  lemma StrtolParts(s: Text, a: nat, b: nat, c: nat, n: nat)
    requires a == Spaces(s) && b == (if a < |s| && s[a] in {'+', '-'} then a + 1 else a)
    requires c == (if b + 2 < |s| && s[b] == '0' && s[b + 1] in {'x', 'X'} && IsHex(s[b + 2]) then b + 2 else b)
    requires n == HexRun(s[c..])
    ensures n == 0 ==> Strtol(s) == Converted(0, 0)
    ensures n > 0 ==> var v: int := Number(s[c..][..n]); Strtol(s) == Converted(Clamp(if b > a && s[a] == '-' then -v else v), c + n)
  {
    hide Spaces, HexRun, Number, Clamp;
  }

  /** The number with its sign, as far as a `long` goes. */
  function Signed(negative: bool, v: int): int { Clamp(if negative then -v else v) }

  lemma {:induction false} SpacesAre(s: Text, a: nat)
    requires a <= |s| && (forall i :: 0 <= i < a ==> IsSpace(s[i])) && (a < |s| ==> !IsSpace(s[a]))
    ensures Spaces(s) == a
  {
    if a > 0 {
      SpacesAre(s[1..], a - 1);
    }
  }

  lemma {:induction false} DigitsAre(s: Text, n: nat)
    requires n <= |s| && AllHex(s[..n]) && (n < |s| ==> !IsHex(s[n]))
    ensures HexRun(s) == n
  {
    if n > 0 {
      assert IsHex(s[..n][0]);
      assert s[1..][..n - 1] == s[..n][1..];
      DigitsAre(s[1..], n - 1);
    }
  }

  /** Whatever white space, sign and prefix stand before the digits: the number is theirs, with the sign, saturated. White space ends
      at `a`, the sign at `b`, the prefix at `c`, and `n` digits follow. */
  lemma StrtolForms(s: Text, a: nat, b: nat, c: nat, n: nat)
    requires a <= b <= c && n > 0 && c + n <= |s| && forall i :: 0 <= i < a ==> IsSpace(s[i])
    requires b == a || (b == a + 1 && s[a] in {'+', '-'})
    requires c == b || (c == b + 2 && s[b] == '0' && s[b + 1] in {'x', 'X'})
    requires AllHex(s[c..][..n]) && (c + n < |s| ==> !IsHex(s[c + n]) && s[c + n] !in {'x', 'X'})
    ensures Strtol(s) == Converted(Signed(b > a && s[a] == '-', Number(s[c..][..n])), c + n)
  {
    hide Number, Clamp, HexRun, Spaces, Strtol;
    assert s[c..][..n][0] == s[c] && (n > 1 ==> s[c..][..n][1] == s[c + 1]);
    SpacesAre(s, a);
    DigitsAre(s[c..], n);
    StrtolParts(s, a, b, c, n);
  }

  /** Without digits nothing is read. */
  lemma StrtolNothing(s: Text, a: nat, b: nat)
    requires a <= b <= |s| && forall i :: 0 <= i < a ==> IsSpace(s[i])
    requires if b == a then a < |s| ==> !IsSpace(s[a]) && s[a] !in {'+', '-'} else b == a + 1 && s[a] in {'+', '-'}
    requires b < |s| ==> !IsHex(s[b])
    ensures Strtol(s) == Converted(0, 0)
  {
    hide Number, Clamp, HexRun, Spaces, Strtol;
    SpacesAre(s, a);
    DigitsAre(s[b..], 0);
    StrtolParts(s, a, b, b, 0);
  }

  function Lower(c: char): char
  {
    if 'A' <= c <= 'Z' then (c as int + 32) as char else c
  }

  /** The sixteen digits, in either case, are those that print the values 0 to 15. */
  lemma DigitValues(c: char)
    requires IsHex(c)
    ensures HexDigit(HexValue(c)) == Lower(c)
    ensures HexValue('0') == 0 && HexValue('9') == 9 && HexValue('a') == HexValue('A') == 10 && HexValue('f') == HexValue('F') == 15
  {
  }

  /** The number read keeps its sign and stays within a `long` of 64 bits. */
  lemma SignedIs(negative: bool, v: nat)
    ensures Signed(negative, v) ==
            var w: int := v;
            if !negative then (if w < 0x8000_0000_0000_0000 then w else 0x7FFF_FFFF_FFFF_FFFF)
            else if w <= 0x8000_0000_0000_0000 then -w else -0x8000_0000_0000_0000
  {
  }

  /** A group sets its byte to its number modulo 256, or to ff when it exceeds a `long` of 64 bits. */
  lemma GroupByteIs(g: Text)
    requires AllHex(g)
    ensures GroupByte(g) == if Number(g) < 0x8000_0000_0000_0000 then Number(g) % 256 else 255
  {
  }

  lemma StrtolGroup(g: Text, rest: Text)
    requires g != [] && AllHex(g) && (rest != [] ==> rest[0] == ':')
    ensures Strtol(g + rest) == Converted(Clamp(Number(g)), |g|)
  {
    hide Strtol, Number;
    var s := g + rest;
    HexRunOf(g, rest);
    assert IsHex(s[0]) && (|s| > 1 ==> IsHex(s[1]) || s[1] == ':') && s[..|g|] == g;
    StrtolPlain(s, |g|);
  }

  lemma ParsedFirst(g: Text, rest: Text, i: nat, mac: Mac)
    requires g != [] && AllHex(g) && (rest != [] ==> rest[0] == ':') && i < ETH_ALEN
    ensures var mac' := mac[i := GroupByte(g)];
            Parsed(g + rest, i, mac) == if rest == [] then mac' else Parsed(rest[1..], i + 1, mac')
  {
    StrtolGroup(g, rest);
    hide Strtol;
    assert rest != [] ==> (g + rest)[|g| + 1..] == rest[1..];
  }

  lemma JoinedCons(gs: seq<Text>)
    requires |gs| > 1
    ensures Joined(gs) == gs[0] + (":" + Joined(gs[1..]))
  {
  }

  /** Setting a byte and then those after it is setting them all. */
  lemma SetFrom(mac: Mac, i: nat, b: byte, bs: seq<byte>)
    requires i + 1 + |bs| <= ETH_ALEN
    ensures var mac' := mac[i := b];
            mac'[..i + 1] + bs + mac'[i + 1 + |bs|..] == mac[..i] + ([b] + bs) + mac[i + 1 + |bs|..]
  {
  }

  lemma GroupBytesCons(gs: seq<Text>)
    requires Groups(gs) && gs != []
    ensures GroupBytes(gs) == [GroupByte(gs[0])] + GroupBytes(gs[1..])
  {
  }

  lemma OneGroup(g: Text, i: nat, mac: Mac)
    requires g != [] && AllHex(g) && i < ETH_ALEN
    ensures Parsed(g, i, mac) == mac[..i] + [GroupByte(g)] + mac[i + 1..]
  {
    hide Parsed, AllHex, GroupByte;
    ParsedFirst(g, [], i, mac);
    assert g + [] == g;
    assert mac[i := GroupByte(g)] == mac[..i] + [GroupByte(g)] + mac[i + 1..];
  }

  /** Up to six groups separated by colons set as many bytes, each to the value of its group, and leave the others. */
  lemma {:induction false} ParsedGroups(gs: seq<Text>, i: nat, mac: Mac)
    requires Groups(gs) && 0 < |gs| && i + |gs| <= ETH_ALEN
    ensures Parsed(Joined(gs), i, mac) == mac[..i] + GroupBytes(gs) + mac[i + |gs|..]
    decreases |gs|
  {
    hide Parsed, AllHex, GroupByte, GroupBytes;
    var g, bs := gs[0], GroupBytes(gs[1..]);
    GroupBytesCons(gs);
    SetFrom(mac, i, GroupByte(g), bs);
    if |gs| == 1 {
      assert Joined(gs) == g && bs == [] && [GroupByte(g)] + [] == [GroupByte(g)];
      OneGroup(g, i, mac);
    } else {
      hide Joined;
      JoinedCons(gs);
      var rest := ":" + Joined(gs[1..]);
      ParsedFirst(g, rest, i, mac);
      assert rest[1..] == Joined(gs[1..]);
      ParsedGroups(gs[1..], i + 1, mac[i := GroupByte(g)]);
    }
  }

  lemma HexDigitValue(d: nat)
    requires d < 16
    ensures IsHex(HexDigit(d)) && HexValue(HexDigit(d)) == d
  {
  }

  lemma Hex2Value(b: byte)
    ensures AllHex(Hex2(b)) && Number(Hex2(b)) == b && GroupByte(Hex2(b)) == b
  {
    HexDigitValue(b / 16);
    HexDigitValue(b % 16);
    var s := Hex2(b);
    assert s[..1] == [s[0]] && s[..1][..0] == [];
    assert Number(s[..1]) == HexValue(s[0]);
  }

  lemma GetMacStrJoined(mac: Mac)
    ensures GetMacStr(mac) == Joined(Padded(mac))
    ensures |GetMacStr(mac)| == 17
  {
    var gs := Padded(mac);
    assert gs[5..] == [gs[5]] && gs[4..][1..] == gs[5..] && gs[3..][1..] == gs[4..] && gs[2..][1..] == gs[3..] && gs[1..][1..] == gs[2..];
    assert Joined(gs[5..]) == gs[5];
    assert Joined(gs[4..]) == gs[4] + ":" + gs[5];
    assert Joined(gs[3..]) == gs[3] + ":" + Joined(gs[4..]);
    assert Joined(gs[2..]) == gs[2] + ":" + Joined(gs[3..]);
    assert Joined(gs[1..]) == gs[1] + ":" + Joined(gs[2..]);
  }

  /** A printed MAC reads back as itself, whatever the bytes were before. */
  lemma MacRoundTrip(mac: Mac, was: Mac)
    ensures Parsed(GetMacStr(mac), 0, was) == mac
  {
    GetMacStrJoined(mac);
    forall i | 0 <= i < 6
      ensures AllHex(Padded(mac)[i]) && GroupByte(Padded(mac)[i]) == mac[i]
    {
      Hex2Value(mac[i]);
    }
    ParsedGroups(Padded(mac), 0, was);
    assert GroupBytes(Padded(mac)) == mac;
  }

  /** Printing determines the MAC. */
  lemma GetMacStrInjective(m: Mac, n: Mac)
    requires GetMacStr(m) == GetMacStr(n)
    ensures m == n
  {
    MacRoundTrip(m, m);
    MacRoundTrip(n, m);
  }

  /** Reading six groups of values up to ff and printing them gives the same numbers, each in two lower-case digits;
      a second reading and printing changes nothing. */
  lemma Canonical(gs: seq<Text>, was: Mac)
    requires Groups(gs) && |gs| == 6 && forall i :: 0 <= i < 6 ==> Number(gs[i]) <= 0xff
    ensures var once := GetMacStr(Parsed(Joined(gs), 0, was));
            && once == Joined(Padded(GroupBytes(gs))) && (forall i :: 0 <= i < 6 ==> GroupBytes(gs)[i] == Number(gs[i]))
            && GetMacStr(Parsed(once, 0, was)) == once
  {
    hide Joined, Parsed, GetMacStr;
    ParsedGroups(gs, 0, was);
    assert was[..0] + GroupBytes(gs) + was[6..] == GroupBytes(gs);
    GetMacStrJoined(GroupBytes(gs));
    MacRoundTrip(GroupBytes(gs), was);
  }
}
